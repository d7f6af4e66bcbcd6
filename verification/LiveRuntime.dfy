/**
 The hot apply (app/proxy_live_runtime.py with switch_prepared_outbound of app/xray_live_apply.py): add a new
 handler, select it, make the files durable, or take everything back.  A marker file records how far the
 attempt came; while it or a journal exists every later apply refuses.
 */
module LiveRuntime {
  import opened Wrappers
  import opened ApplyJournal
  import opened ApplyState
  import opened RuntimeModel
  import opened XrayCore

  datatype Marker = AtPrepared | AtAdded | AtSelected | AtVerified | AtRolledBack | AtRecoveryRequired | AtRetiring
                  | AtColdPrepared

  // How the protocol-owned service answers to the staged files, and to a rollback.
  datatype Service = NoService | Dependent(staged: Ack, restored: bool)

  datatype HotOutcome = RestartRequired | NoopUnchecked | Noop | Unhealthy | HotDone | HotCleanupPending | ApplyError
                      | Died

  datatype ColdOutcome = ColdRefused | Cold | ColdRestored | ColdUncertain | ColdFailed | ColdDied

  datatype Layout = Layout(configPath: Path, receiptPath: Path, keyPath: Path)

  function AckOf(s: Service): Ack {
    if s.NoService? then Absent else s.staged
  }

  // A receipt whose handler tags do not fit its configuration is refused wherever it is read.
  function ReceiptIn(files: Files<Document>, path: Path): Option<Receipt> {
    if path !in files || !files[path].data.value.ReceiptText? then None
    else
      var receipt := files[path].data.value.receipt;
      if Manageable(receipt.logical, receipt.targets) then Some(receipt) else None
  }

  // A receipt is orderly, and while the core it describes still runs that core has its handlers.
  predicate Holds(receipt: Receipt, maxRetained: nat, identity: nat) {
    && TagsOrderly(receipt, maxRetained) && receipt.identity <= identity
    && (receipt.identity == identity ==> Known(receipt))
  }

  predicate Fits(files: Files<Document>, path: Path, maxRetained: nat, identity: nat) {
    var receipt := ReceiptIn(files, path);
    receipt.Some? ==> Holds(receipt.value, maxRetained, identity)
  }

  function Entries(policy: Policy, files: Files<Document>, updates: seq<Update<Document>>): seq<Entry<Document>> {
    Snapshots(policy, files, updates)
  }

  // The disk right after a successful prepare.
  function Journalled(policy: Policy, files: Files<Document>, updates: seq<Update<Document>>): Store<Document> {
    Store(files, Some(Journal(Prepared, Entries(policy, files, updates))))
  }

  // The commit's last sync fails after the journal is gone.
  ghost predicate JournalLost(policy: Policy, files: Files<Document>, updates: seq<Update<Document>>, s: Service,
                              verdicts: seq<Verdict>) {
    ClearLost(policy, Journalled(policy, files, updates), AckOf(s), Tail(verdicts))
  }

  function NewFiles(policy: Policy, files: Files<Document>, updates: seq<Update<Document>>): Files<Document> {
    Applied(files, Entries(policy, files, updates))
  }

  // Recovery of this disk yields all files old or all files new.
  ghost predicate OldOrNew(policy: Policy, files: Files<Document>, updates: seq<Update<Document>>, s: Store<Document>) {
    || Settling(policy, files, s)
    || (Settling(policy, NewFiles(policy, files, updates), s) && Loads(policy, Entries(policy, files, updates)))
  }

  // What recovering a failed transaction ends in; `lost` is a commit whose last sync failed.
  ghost predicate RecoversTo(policy: Policy, files: Files<Document>, updates: seq<Update<Document>>, lost: bool,
                             after: Ran<Document, Recovery>) {
    && OldOrNew(policy, files, updates, after.store)
    && (after.outcome.Returned? ==>
          && after.store.journal.None?
          && (after.outcome.result == WasCommitted ==>
                after.store.files == NewFiles(policy, files, updates) && Loads(policy, Entries(policy, files, updates)))
          && (after.outcome.result != WasCommitted ==>
                after.store.files == files
                || (lost && after.store.files == NewFiles(policy, files, updates)
                    && Loads(policy, Entries(policy, files, updates)))))
  }

  // The service, if there is one, accepts the staged files.
  predicate Willing(s: Service) {
    AckOf(s) in {Absent, Answer(true)}
  }

  // The bundle is prepared, and its journal loads.
  predicate Storable(policy: Policy, files: Files<Document>, updates: seq<Update<Document>>) {
    Acceptable(policy, files, updates) && Loads(policy, Entries(policy, files, updates))
  }

  // One generation change: the new handler, its settings and the balancer that selects it.
  datatype Change = Change(tag: Tag, body: string, balancer: Tag)

  // What a hot apply is going to store once the runtime has switched.
  datatype Plan = Plan(keyPath: Path, key: string, desired: Logical, state: Receipt, logical: Tag, generation: nat,
                       extra: seq<Update<Document>>, sizeOf: Document -> nat)

  function Sized(plan: Plan, path: Path, d: Document): Update<Document> {
    Update(path, Blob(d, plan.sizeOf(d)))
  }

  function NewTag(plan: Plan): Tag {
    HandlerTag(plan.logical, Generation(plan.generation))
  }

  // The change of a plan whose configuration has the outbound.
  function ChangeOf(plan: Plan): Change
    requires Find(plan.desired.outbounds, plan.logical).Some?
  {
    Change(NewTag(plan), Find(plan.desired.outbounds, plan.logical).value.body, BalancerTag(plan.logical))
  }

  // The table of handler tags once the new one is selected.
  function NewTargets(plan: Plan): map<Tag, Tag> {
    plan.state.targets[plan.logical := NewTag(plan)]
  }

  function NewReceipt(plan: Plan, seen: Observation): Receipt
    requires plan.logical in plan.state.targets
  {
    Switched(plan.state, plan.logical, NewTag(plan), plan.desired, plan.generation, seen)
  }

  // The key, the configuration, the receipt and then the metadata.
  function UpdatesFor(plan: Plan, layout: Layout, seen: Observation): seq<Update<Document>>
    requires plan.logical in plan.state.targets
  {
    var receipt := NewReceipt(plan, seen);
    [Sized(plan, plan.keyPath, KeyText(plan.key)),
     Sized(plan, layout.configPath, CoreConfig(plan.desired, receipt.targets)),
     Sized(plan, layout.receiptPath, ReceiptText(receipt))] + plan.extra
  }

  // An unchanged configuration: the key text and the metadata.
  function KeyUpdates(plan: Plan): seq<Update<Document>> {
    [Sized(plan, plan.keyPath, KeyText(plan.key))] + plan.extra
  }

  // A cold apply writes the key, the configuration and the metadata; the receipt follows the restart.
  function ColdUpdates(plan: Plan, layout: Layout, receipt: Option<Receipt>): seq<Update<Document>> {
    [Sized(plan, plan.keyPath, KeyText(plan.key)),
     Sized(plan, layout.configPath, CoreConfig(plan.desired, TargetsFor(plan.desired, receipt)))] + plan.extra
  }

  function WithReceipt(files: Files<Document>, policy: Policy, layout: Layout,
                       receipt: Receipt, size: nat): Files<Document>
  {
    files[layout.receiptPath := File(Blob(ReceiptText(receipt), size), Meta(NEW_FILE_MODE, policy.uid, policy.gid))]
  }

  function AfterDetach(files: Files<Document>, policy: Policy, layout: Layout, plan: Plan,
                       seen: Observation): Files<Document>
    requires plan.logical in plan.state.targets
  {
    var updated := Detached(NewReceipt(plan, seen), plan.state.targets[plan.logical]);
    WithReceipt(files, policy, layout, updated, plan.sizeOf(ReceiptText(updated)))
  }

  // The receipt that a finished hot apply leaves on disk.
  function FinalReceipt(plan: Plan, seen: Observation, detached: bool): Receipt
    requires plan.logical in plan.state.targets
  {
    var receipt := NewReceipt(plan, seen);
    if detached then Detached(receipt, plan.state.targets[plan.logical]) else receipt
  }

  predicate ConfigIn(files: Files<Document>, layout: Layout, logical: Logical, targets: map<Tag, Tag>) {
    layout.configPath in files && files[layout.configPath].data.value == CoreConfig(logical, targets)
  }

  // A core that is restarted into these files runs the configuration.
  predicate Startable(files: Files<Document>, layout: Layout, logical: Logical) {
    var targets := TargetsFor(logical, ReceiptIn(files, layout.receiptPath));
    Manageable(logical, targets) && ConfigIn(files, layout, logical, targets)
  }

  // The cold bundle can be written, and none of its first two files is the receipt.
  predicate CanStage(policy: Policy, files: Files<Document>, plan: Plan, layout: Layout) {
    && layout.receiptPath != layout.configPath && layout.receiptPath != plan.keyPath
    && Storable(policy, files, ColdUpdates(plan, layout, ReceiptIn(files, layout.receiptPath)))
  }

  // The key text and the metadata are on disk.
  predicate KeyStored(files: Files<Document>, plan: Plan) {
    && plan.keyPath in files && files[plan.keyPath].data.value == KeyText(plan.key)
    && forall i :: 0 <= i < |plan.extra| ==>
         plan.extra[i].path in files && files[plan.extra[i].path].data == plan.extra[i].data
  }

  // So is the desired configuration, with this protocol's handler tag of the new generation.
  predicate HotStored(files: Files<Document>, layout: Layout, plan: Plan) {
    && KeyStored(files, plan)
    && ConfigIn(files, layout, plan.desired,
                plan.state.targets[plan.logical := HandlerTag(plan.logical, Generation(plan.generation))])
  }

  // A receipt of the same process, configuration and tags that retains the old handler or, once struck, does not.
  predicate ReceiptSays(receipt: Option<Receipt>, plan: Plan, struck: bool)
    requires plan.logical in plan.state.targets
  {
    && receipt.Some? && receipt.value.identity == plan.state.identity && receipt.value.logical == plan.desired
    && receipt.value.generation == plan.generation
    && receipt.value.targets ==
         plan.state.targets[plan.logical := HandlerTag(plan.logical, Generation(plan.generation))]
    && multiset(receipt.value.retained) ==
         multiset(plan.state.retained) + if struck then multiset{} else multiset{plan.state.targets[plan.logical]}
  }

  // Metadata may not replace a core transaction file.
  predicate Collides(plan: Plan, layout: Layout) {
    exists i :: 0 <= i < |plan.extra| && plan.extra[i].path in {layout.receiptPath, layout.configPath, plan.keyPath}
  }

  // A whole bundle on disk holds each update's contents.
  lemma UpdateInstalled(policy: Policy, files: Files<Document>, updates: seq<Update<Document>>, i: nat)
    requires i < |updates| && Loads(policy, Entries(policy, files, updates))
    ensures updates[i].path in NewFiles(policy, files, updates)
    ensures NewFiles(policy, files, updates)[updates[i].path].data == updates[i].data
  {
    var entries := Entries(policy, files, updates);
    AppliedAt(files, entries);
    assert At(Applied(files, entries), entries[i].path) == Some(File(entries[i].after, entries[i].meta));
  }

  lemma ReceiptInstalled(policy: Policy, files: Files<Document>, plan: Plan, layout: Layout, seen: Observation)
    requires plan.logical in plan.state.targets && Loads(policy, Entries(policy, files, UpdatesFor(plan, layout, seen)))
    requires Manageable(plan.desired, NewTargets(plan))
    ensures ReceiptIn(NewFiles(policy, files, UpdatesFor(plan, layout, seen)), layout.receiptPath) ==
              Some(NewReceipt(plan, seen))
  {
    UpdateInstalled(policy, files, UpdatesFor(plan, layout, seen), 2);
  }

  lemma {:induction false} RemovedOnce(tags: seq<Tag>, target: Tag)
    requires target in tags
    ensures multiset(Removed(tags, target)) + multiset{target} == multiset(tags)
  {
    assert tags == [tags[0]] + tags[1..];
    if tags[0] != target { RemovedOnce(tags[1..], target); }
  }

  lemma FinalSays(plan: Plan, seen: Observation, struck: bool)
    requires plan.logical in plan.state.targets
    ensures ReceiptSays(Some(FinalReceipt(plan, seen, struck)), plan, struck)
  {
    var target := plan.state.targets[plan.logical];
    var retained := plan.state.retained + [target];
    assert NewReceipt(plan, seen).retained == retained && retained[|retained| - 1] == target;
    assert multiset(retained) == multiset(plan.state.retained) + multiset{target};
    RemovedOnce(retained, target);
    var rest := multiset(Removed(retained, target));
    assert rest == rest + multiset{target} - multiset{target};
    assert rest == multiset(plan.state.retained);
  }

  // A whole bundle of a hot apply, with or without the receipt written again behind it.
  lemma HotInstalled(policy: Policy, files: Files<Document>, plan: Plan, layout: Layout, seen: Observation)
    requires plan.logical in plan.state.targets && Loads(policy, Entries(policy, files, UpdatesFor(plan, layout, seen)))
    ensures var next := NewFiles(policy, files, UpdatesFor(plan, layout, seen));
      HotStored(next, layout, plan) && HotStored(AfterDetach(next, policy, layout, plan, seen), layout, plan)
  {
    var updates := UpdatesFor(plan, layout, seen);
    var entries := Entries(policy, files, updates);
    UpdateInstalled(policy, files, updates, 0);
    UpdateInstalled(policy, files, updates, 1);
    assert updates[1] == Sized(plan, layout.configPath, CoreConfig(plan.desired, NewTargets(plan)));
    assert updates[2].path == layout.receiptPath;
    assert entries[0].path != entries[2].path && entries[1].path != entries[2].path;
    forall i | 0 <= i < |plan.extra|
      ensures plan.extra[i].path in NewFiles(policy, files, updates)
      ensures NewFiles(policy, files, updates)[plan.extra[i].path].data == plan.extra[i].data
      ensures plan.extra[i].path != layout.receiptPath
    {
      assert updates[3 + i] == plan.extra[i] && entries[2].path != entries[3 + i].path;
      UpdateInstalled(policy, files, updates, 3 + i);
    }
  }

  lemma KeyInstalled(policy: Policy, files: Files<Document>, plan: Plan)
    requires Loads(policy, Entries(policy, files, KeyUpdates(plan)))
    ensures KeyStored(NewFiles(policy, files, KeyUpdates(plan)), plan)
  {
    var updates := KeyUpdates(plan);
    UpdateInstalled(policy, files, updates, 0);
    forall i | 0 <= i < |plan.extra|
      ensures plan.extra[i].path in NewFiles(policy, files, updates)
      ensures NewFiles(policy, files, updates)[plan.extra[i].path].data == plan.extra[i].data
    {
      assert updates[1 + i] == plan.extra[i];
      UpdateInstalled(policy, files, updates, 1 + i);
    }
  }

  // A whole cold bundle, with a receipt written behind it that is none of its files.
  lemma ColdInstalled(policy: Policy, files: Files<Document>, plan: Plan, layout: Layout, before: Option<Receipt>,
                      written: Option<Receipt>)
    requires Loads(policy, Entries(policy, files, ColdUpdates(plan, layout, before))) && !Collides(plan, layout)
    requires layout.receiptPath != layout.configPath && layout.receiptPath != plan.keyPath
    ensures var next := WithLoad(NewFiles(policy, files, ColdUpdates(plan, layout, before)), policy, layout, written,
                                 plan.sizeOf);
      KeyStored(next, plan) && ConfigIn(next, layout, plan.desired, TargetsFor(plan.desired, before))
  {
    var updates := ColdUpdates(plan, layout, before);
    UpdateInstalled(policy, files, updates, 0);
    UpdateInstalled(policy, files, updates, 1);
    forall i | 0 <= i < |plan.extra|
      ensures plan.extra[i].path in NewFiles(policy, files, updates)
      ensures NewFiles(policy, files, updates)[plan.extra[i].path].data == plan.extra[i].data
      ensures plan.extra[i].path != layout.receiptPath
    {
      assert updates[2 + i] == plan.extra[i];
      UpdateInstalled(policy, files, updates, 2 + i);
    }
  }

  lemma DetachedInstalled(files: Files<Document>, policy: Policy, layout: Layout, plan: Plan, seen: Observation)
    requires plan.logical in plan.state.targets && Manageable(plan.desired, NewTargets(plan))
    ensures ReceiptIn(AfterDetach(files, policy, layout, plan, seen), layout.receiptPath) ==
              Some(FinalReceipt(plan, seen, true))
  {
  }

  /** A fresh handler tag keeps the receipt orderly, detached or not. */
  lemma FinalIsOrderly(plan: Plan, seen: Observation, detached: bool, maxRetained: nat)
    requires plan.logical in plan.state.targets && Orderly(plan.state, maxRetained)
    requires |plan.state.retained| < maxRetained
    requires Manageable(plan.desired, NewTargets(plan)) && NewTag(plan) !in plan.state.observed.handlers
    ensures TagsOrderly(FinalReceipt(plan, seen, detached), maxRetained)
    ensures seen.handlers.Keys == plan.state.observed.handlers.Keys + {NewTag(plan)} ==>
              Known(FinalReceipt(plan, seen, detached))
  {
    SwitchedIsOrderly(plan.state, plan.logical, NewTag(plan), plan.desired, plan.generation, seen, maxRetained);
    var receipt, target := NewReceipt(plan, seen), plan.state.targets[plan.logical];
    assert receipt.retained[|receipt.retained| - 1] == target;
    DetachedIsOrderly(receipt, target, maxRetained);
  }

  // No receipt is written there, or a sound one.
  predicate SoundUpdate(u: Update<Document>, path: Path, maxRetained: nat, identity: nat) {
    u.path == path && u.data.value.ReceiptText? ==> Holds(u.data.value.receipt, maxRetained, identity)
  }

  // A whole bundle keeps the receipt on disk sound if it holds no receipt, or a sound one.
  lemma BundleFits(policy: Policy, files: Files<Document>, updates: seq<Update<Document>>, path: Path,
                   maxRetained: nat, identity: nat)
    requires Fits(files, path, maxRetained, identity) && Loads(policy, Entries(policy, files, updates))
    requires forall i :: 0 <= i < |updates| ==> SoundUpdate(updates[i], path, maxRetained, identity)
    ensures Fits(NewFiles(policy, files, updates), path, maxRetained, identity)
  {
    var entries := Entries(policy, files, updates);
    AppliedAt(files, entries);
    if i :| 0 <= i < |updates| && updates[i].path == path {
      UpdateInstalled(policy, files, updates, i);
    } else {
      assert At(Applied(files, entries), path) == At(files, path);
    }
  }

  // Metadata holds no receipt at the receipt's path.
  lemma ExtraIsSound(first: seq<Update<Document>>, plan: Plan, layout: Layout, maxRetained: nat, identity: nat)
    requires !Collides(plan, layout)
    requires forall i :: 0 <= i < |first| ==> SoundUpdate(first[i], layout.receiptPath, maxRetained, identity)
    ensures forall i :: 0 <= i < |first + plan.extra| ==>
              SoundUpdate((first + plan.extra)[i], layout.receiptPath, maxRetained, identity)
  {
    forall i | |first| <= i < |first + plan.extra| ensures (first + plan.extra)[i].path != layout.receiptPath {
      assert (first + plan.extra)[i] == plan.extra[i - |first|];
    }
  }

  lemma HotFits(policy: Policy, files: Files<Document>, plan: Plan, layout: Layout, seen: Observation,
                maxRetained: nat, identity: nat)
    requires plan.logical in plan.state.targets && !Collides(plan, layout)
    requires Fits(files, layout.receiptPath, maxRetained, identity)
    requires Holds(NewReceipt(plan, seen), maxRetained, identity)
    requires Loads(policy, Entries(policy, files, UpdatesFor(plan, layout, seen)))
    ensures Fits(NewFiles(policy, files, UpdatesFor(plan, layout, seen)), layout.receiptPath, maxRetained, identity)
  {
    var updates := UpdatesFor(plan, layout, seen);
    assert updates == updates[..3] + plan.extra;
    ExtraIsSound(updates[..3], plan, layout, maxRetained, identity);
    BundleFits(policy, files, updates, layout.receiptPath, maxRetained, identity);
  }

  lemma ColdFits(policy: Policy, files: Files<Document>, plan: Plan, layout: Layout, receipt: Option<Receipt>,
                 maxRetained: nat, identity: nat)
    requires !Collides(plan, layout) && Fits(files, layout.receiptPath, maxRetained, identity)
    requires Loads(policy, Entries(policy, files, ColdUpdates(plan, layout, receipt)))
    ensures Fits(NewFiles(policy, files, ColdUpdates(plan, layout, receipt)), layout.receiptPath, maxRetained, identity)
  {
    var updates := ColdUpdates(plan, layout, receipt);
    assert updates == updates[..2] + plan.extra;
    ExtraIsSound(updates[..2], plan, layout, maxRetained, identity);
    BundleFits(policy, files, updates, layout.receiptPath, maxRetained, identity);
  }

  // The cold bundle leaves the receipt alone.
  lemma ReceiptUntouched(policy: Policy, files: Files<Document>, plan: Plan, layout: Layout)
    requires layout.receiptPath != layout.configPath && layout.receiptPath != plan.keyPath && !Collides(plan, layout)
    requires var updates := ColdUpdates(plan, layout, ReceiptIn(files, layout.receiptPath));
      Loads(policy, Entries(policy, files, updates))
    ensures var updates := ColdUpdates(plan, layout, ReceiptIn(files, layout.receiptPath));
      ReceiptIn(NewFiles(policy, files, updates), layout.receiptPath) == ReceiptIn(files, layout.receiptPath)
  {
    var updates := ColdUpdates(plan, layout, ReceiptIn(files, layout.receiptPath));
    var entries := Entries(policy, files, updates);
    forall i | 0 <= i < |entries| ensures entries[i].path != layout.receiptPath {
      if i >= 2 { assert updates[i] == plan.extra[i - 2]; }
    }
    AppliedAt(files, entries);
    assert At(Applied(files, entries), layout.receiptPath) == At(files, layout.receiptPath);
  }

  // The core can be started from it.
  lemma ColdStartable(policy: Policy, files: Files<Document>, plan: Plan, layout: Layout)
    requires !Collides(plan, layout) && CanStage(policy, files, plan, layout)
    requires Manageable(plan.desired, TargetsFor(plan.desired, ReceiptIn(files, layout.receiptPath)))
    ensures var updates := ColdUpdates(plan, layout, ReceiptIn(files, layout.receiptPath));
      Startable(NewFiles(policy, files, updates), layout, plan.desired)
  {
    ReceiptUntouched(policy, files, plan, layout);
    UpdateInstalled(policy, files, ColdUpdates(plan, layout, ReceiptIn(files, layout.receiptPath)), 1);
  }

  // Without faults the cold bundle is staged.
  lemma ColdStages(policy: Policy, files: Files<Document>, updates: seq<Update<Document>>)
    requires Storable(policy, files, updates)
    ensures var staged := Stage(policy, Journalled(policy, files, updates), []);
      && staged.outcome.Returned? && staged.rest == [] && staged.store.journal.Some?
      && staged.store.files == NewFiles(policy, files, updates)
  {
    var s := Journalled(policy, files, updates);
    PrepareMixes(policy, Store(files, None), updates);
    SettlingIsFamiliar(policy, files, s);
    UndisturbedWrite(files, s.journal.value.entries, false);
    StageSettles(policy, files, s, []);
  }

  // Whichever files a recovery leaves after a hot apply, the receipt on disk is sound.
  predicate HotFitting(policy: Policy, layout: Layout, maxRetained: nat, identity: nat,
                       files: Files<Document>, plan: Plan, updates: seq<Update<Document>>, seen: Observation)
  {
    && Fits(files, layout.receiptPath, maxRetained, identity)
    && (Loads(policy, Entries(policy, files, updates)) ==>
          var next := NewFiles(policy, files, updates);
          && Fits(next, layout.receiptPath, maxRetained, identity)
          && (plan.logical in plan.state.targets && updates == UpdatesFor(plan, layout, seen) ==>
                Fits(AfterDetach(next, policy, layout, plan, seen), layout.receiptPath, maxRetained, identity)))
  }

  lemma KeyFits(policy: Policy, layout: Layout, maxRetained: nat, identity: nat, files: Files<Document>, plan: Plan,
                seen: Observation)
    requires !Collides(plan, layout) && Fits(files, layout.receiptPath, maxRetained, identity)
    ensures HotFitting(policy, layout, maxRetained, identity, files, plan, KeyUpdates(plan), seen)
  {
    var updates := KeyUpdates(plan);
    assert updates == updates[..1] + plan.extra;
    ExtraIsSound(updates[..1], plan, layout, maxRetained, identity);
    if Loads(policy, Entries(policy, files, updates)) {
      BundleFits(policy, files, updates, layout.receiptPath, maxRetained, identity);
    }
    assert plan.logical in plan.state.targets ==> |updates| != |UpdatesFor(plan, layout, seen)|;
  }

  // An apply that stops before it writes anything.
  lemma NothingWritten(policy: Policy, layout: Layout, maxRetained: nat, identity: nat, files: Files<Document>,
                       plan: Plan, seen: Observation)
    ensures HotLeaves(policy, layout, files, plan, [], seen, Store(files, None))
    ensures Fits(files, layout.receiptPath, maxRetained, identity) ==>
              HotFitting(policy, layout, maxRetained, identity, files, plan, [], seen)
  {
  }

  // A switch to a fresh tag, seen by the process that the receipt describes or by a later one.
  predicate FreshSwitch(plan: Plan, layout: Layout, seen: Observation, maxRetained: nat, identity: nat) {
    && plan.logical in plan.state.targets && !Collides(plan, layout) && |plan.state.retained| < maxRetained
    && Manageable(plan.desired, NewTargets(plan)) && NewTag(plan) !in plan.state.observed.handlers
    && plan.state.identity <= identity && Find(plan.desired.outbounds, plan.logical).Some?
    && (plan.state.identity == identity ==>
          && seen == Full(plan.state.observed, ChangeOf(plan))
          && seen.handlers.Keys == plan.state.observed.handlers.Keys + {NewTag(plan)})
  }

  lemma SwitchIsFresh(plan: Plan, layout: Layout, seen: Observation, maxRetained: nat, earlier: nat, identity: nat)
    requires plan.logical in plan.state.targets && !Collides(plan, layout) && |plan.state.retained| < maxRetained
    requires Manageable(plan.desired, NewTargets(plan)) && Find(plan.desired.outbounds, plan.logical).Some?
    requires NewTag(plan) !in plan.state.observed.handlers && plan.state.identity == earlier <= identity
    requires earlier == identity ==>
               seen == Full(plan.state.observed, ChangeOf(plan))
    ensures FreshSwitch(plan, layout, seen, maxRetained, identity)
  {
  }

  lemma FreshLater(plan: Plan, layout: Layout, seen: Observation, maxRetained: nat, identity: nat, later: nat)
    requires FreshSwitch(plan, layout, seen, maxRetained, identity) && identity <= later
    ensures FreshSwitch(plan, layout, seen, maxRetained, later)
  {
  }

  lemma SwitchFits(policy: Policy, layout: Layout, maxRetained: nat, identity: nat, files: Files<Document>, plan: Plan,
                   seen: Observation)
    requires FreshSwitch(plan, layout, seen, maxRetained, identity) && Orderly(plan.state, maxRetained)
    requires ReceiptIn(files, layout.receiptPath) == Some(plan.state)
    ensures HotFitting(policy, layout, maxRetained, identity, files, plan, UpdatesFor(plan, layout, seen), seen)
    ensures Holds(FinalReceipt(plan, seen, false), maxRetained, identity)
    ensures Holds(FinalReceipt(plan, seen, true), maxRetained, identity)
  {
    FinalIsOrderly(plan, seen, false, maxRetained);
    FinalIsOrderly(plan, seen, true, maxRetained);
    if Loads(policy, Entries(policy, files, UpdatesFor(plan, layout, seen))) {
      HotFits(policy, files, plan, layout, seen, maxRetained, identity);
    }
  }

  // The old handler is still there and no longer selected.
  predicate OldTargetLeft(plan: Plan, seen: Observation)
    requires plan.logical in plan.state.targets
  {
    var target := plan.state.targets[plan.logical];
    target in seen.handlers && target !in NewTargets(plan).Values
  }

  lemma OldTargetIsLeft(plan: Plan, before: Observation, change: Change)
    requires plan.logical in plan.state.targets && Manageable(plan.state.logical, plan.state.targets)
    requires plan.state.targets[plan.logical] != NewTag(plan) && plan.state.targets[plan.logical] in before.handlers
    ensures OldTargetLeft(plan, Full(before, change))
  {
    var target := plan.state.targets[plan.logical];
    forall k | k in NewTargets(plan) ensures NewTargets(plan)[k] != target {
      if k != plan.logical { assert plan.state.targets[k] != target; }
    }
  }

  // The files with the receipt of a controlled load, if there is one.
  function WithLoad(files: Files<Document>, policy: Policy, layout: Layout, written: Option<Receipt>,
                    sizeOf: Document -> nat): Files<Document> {
    if written.None? then files
    else WithReceipt(files, policy, layout, written.value, sizeOf(ReceiptText(written.value)))
  }

  // What every exit of a hot apply leaves on disk: files that settle on all old or all new, or all new files
  // with the old handler struck from the receipt.
  ghost predicate HotLeaves(policy: Policy, layout: Layout, files: Files<Document>, plan: Plan,
                            updates: seq<Update<Document>>,
                            seen: Observation, s: Store<Document>)
  {
    || OldOrNew(policy, files, updates, s)
    || (plan.logical in plan.state.targets && s.journal.None? && updates == UpdatesFor(plan, layout, seen)
        && Loads(policy, Entries(policy, files, updates))
        && s.files == AfterDetach(NewFiles(policy, files, updates), policy, layout, plan, seen))
  }

  lemma SettledNew(policy: Policy, files: Files<Document>, updates: seq<Update<Document>>)
    requires Loads(policy, Entries(policy, files, updates))
    ensures OldOrNew(policy, files, updates, Store(NewFiles(policy, files, updates), None))
  {
  }

  // What every exit of a cold apply leaves on disk: files that settle on all old or all new, or, once the
  // journal is gone, all old or all new files with the receipt of a controlled load.
  ghost predicate ColdLeaves(policy: Policy, layout: Layout, files: Files<Document>, updates: seq<Update<Document>>,
                             written: Option<Receipt>, sizeOf: Document -> nat, s: Store<Document>)
  {
    || OldOrNew(policy, files, updates, s)
    || (s.journal.None?
        && (s.files == WithLoad(files, policy, layout, written, sizeOf)
            || (s.files == WithLoad(NewFiles(policy, files, updates), policy, layout, written, sizeOf)
                && Loads(policy, Entries(policy, files, updates)))))
  }

  // The API state after the whole change.
  function Full(before: Observation, c: Change): Observation {
    Observation(before.handlers[c.tag := c.body], before.overrides[c.balancer := c.tag])
  }

  // The API state somewhere between: the handler may be there, the selection may have moved.
  predicate Partial(before: Observation, c: Change, now: Observation) {
    && (now.handlers == before.handlers || now.handlers == before.handlers[c.tag := c.body])
    && (now.overrides == before.overrides || now.overrides == before.overrides[c.balancer := c.tag])
  }

  // The state before is known well enough to be restored from the partial state.
  predicate Undoable(before: Observation, c: Change, previous: Tag, now: Observation) {
    && c.tag !in before.handlers && c.balancer in before.overrides && before.overrides[c.balancer] == previous
    && Partial(before, c, now)
  }

  class ProxyLiveRuntime {
    const bundle: ApplyFileBundle<Document>
    const api: XrayApi
    const layout: Layout
    const maxRetained: nat
    var marker: Option<Marker>

    constructor (bundle: ApplyFileBundle<Document>, api: XrayApi, layout: Layout, maxRetained: nat)
      ensures this.bundle == bundle && this.api == api && this.layout == layout && this.maxRetained == maxRetained
      ensures marker == None
    {
      this.bundle, this.api, this.layout, this.maxRetained, this.marker := bundle, api, layout, maxRetained, None;
    }

    // Some earlier transaction is unresolved; every apply refuses.
    predicate Blocked()
      reads this, bundle
    {
      bundle.journal.Some? || marker.Some?
    }

    // The receipt on disk describes this very process and what its API shows.
    ghost predicate Attested(current: Logical)
      reads this, bundle, api
    {
      && !Blocked()
      && var receipt := ReceiptIn(bundle.files, layout.receiptPath);
         receipt.Some? && receipt.value.identity == api.identity && receipt.value.logical == current
         && receipt.value.observed == api.live
    }

    // The files are as they were, and so is the runtime of a process that still runs.
    predicate Unmoved(files: Files<Document>, id: nat, live: Observation)
      reads bundle, api
    {
      bundle.files == files && (api.identity == id ==> api.live == live)
    }

    // The commit lost its journal, and the runtime is attested for nothing.
    ghost predicate LeftUnattested(files: Files<Document>, updates: seq<Update<Document>>, service: Service,
                                   verdicts: seq<Verdict>)
      reads this, bundle, api
    {
      JournalLost(bundle.policy, files, updates, service, verdicts) && forall l :: !Attested(l)
    }

    /** Write the key, configuration and receipt files as one bundle.  Every exit leaves a disk that settles on all
        files old or all files new. */
    method Persist(updates: seq<Update<Document>>, service: Service) returns (r: Reply)
      requires bundle.journal.None?
      modifies bundle
      ensures OldOrNew(bundle.policy, old(bundle.files), updates, bundle.Contents())
      ensures r.Ok? ==> bundle.Contents() == Store(NewFiles(bundle.policy, old(bundle.files), updates), None)
                        && Loads(bundle.policy, Entries(bundle.policy, old(bundle.files), updates))
      ensures r.Fails? && bundle.journal.None? && bundle.files != old(bundle.files) ==>
                && bundle.files == NewFiles(bundle.policy, old(bundle.files), updates)
                && Loads(bundle.policy, Entries(bundle.policy, old(bundle.files), updates))
                && JournalLost(bundle.policy, old(bundle.files), updates, service, old(bundle.verdicts))
      ensures old(bundle.verdicts) == [] && Willing(service) && Storable(bundle.policy, old(bundle.files), updates) ==>
                r.Ok?
    {
      ghost var files, verdicts, policy := bundle.files, bundle.verdicts, bundle.policy;
      var prepared := PrepareFiles(updates);
      if prepared.Raised? { return Fails; }
      if prepared.Crashed? { return Dies; }
      ghost var s := bundle.Contents();
      var attempted := false;
      var committed := bundle.Stage();
      if committed.Returned? {
        if service.Dependent? {
          attempted := true;
          if service.staged == DiesInside { committed := Crashed; }
          if service.staged == Throws || service.staged == Answer(false) { committed := Raised; }
        }
        if committed.Returned? { committed := bundle.Seal(); }
      }
      assert Ran(bundle.Contents(), committed, bundle.verdicts) ==
                ApplyJournal.Commit(policy, s, AckOf(service), Tail(verdicts));
      AfterCommit(policy, files, updates, AckOf(service), Tail(verdicts), bundle.verdicts);
      if verdicts == [] && Willing(service) && Storable(policy, files, updates) {
        UndisturbedCommit(policy, files, s, AckOf(service));
      }
      if committed.Crashed? { return Dies; }
      if committed.Returned? { return Ok; }
      var recovered := RecoverFiles(files, updates, ClearLost(policy, s, AckOf(service), Tail(verdicts)));
      if recovered.Crashed? { return Dies; }
      if recovered.Raised? { return Uncertain; }
      if recovered.result == WasCommitted { return Ok; }
      if attempted && !service.restored { return Uncertain; }
      r := Fails;
    }

    method PrepareFiles(updates: seq<Update<Document>>) returns (outcome: Outcome<()>)
      requires bundle.journal.None?
      modifies bundle
      ensures Settling(bundle.policy, old(bundle.files), bundle.Contents())
      ensures (bundle.journal.Some? ==> bundle.journal.value.phase == Prepared)
      ensures outcome.Returned? ==>
                bundle.Contents() == Journalled(bundle.policy, old(bundle.files), updates)
                && bundle.verdicts == Tail(old(bundle.verdicts))
      ensures old(bundle.verdicts) == [] && Acceptable(bundle.policy, old(bundle.files), updates) ==> outcome.Returned?
    {
      outcome := bundle.Prepare(updates);
      if Acceptable(bundle.policy, old(bundle.files), updates) {
        PrepareMixes(bundle.policy, old(bundle.Contents()), updates);
      }
    }

    // A durable marker write; it can fail before or after the rename.
    method Checkpoint(m: Marker) returns (r: Reply)
      modifies this`marker
      ensures marker == old(marker) || marker == Some(m)
      ensures r.Ok? ==> marker == Some(m)
      ensures !r.Uncertain? && (api.faultless ==> r.Ok?)
    {
      var lost := api.Obstacle();
      if !lost { marker := Some(m); }
      r := Ok;
      var fails := api.Obstacle();
      if fails || lost { r := AnyFailure(); }
    }

    // The intent is still current and the core is still the attested process.
    method CheckCurrent(expected: nat) returns (r: Reply)
      modifies api
      ensures api.identity >= old(api.identity) && (api.identity == old(api.identity) ==> api.live == old(api.live))
      ensures !r.Uncertain? && (r.Ok? ==> old(api.identity) <= expected <= api.identity)
      ensures api.faultless && old(api.identity) == expected ==> r.Ok? && api.identity == expected
    {
      var superseded := api.Obstacle();
      if superseded { r := AnyFailure(); return; }
      var id := api.Identity();
      r := Ok;
      if id != expected { r := Fails; }
    }

    /** The forward steps on the runtime: add, confirm, select and verify, with a checkpoint after each. */
    method Forward(change: Change, verify: bool, expected: nat) returns (r: Reply)
      requires marker.Some?
      modifies this`marker, api
      ensures marker.Some? && (marker == Some(AtRolledBack) ==> old(marker) == Some(AtRolledBack))
      ensures api.identity >= old(api.identity) && !r.Uncertain? && (r.Ok? ==> old(api.identity) <= expected)
      ensures api.identity == old(api.identity) ==> Partial(old(api.live), change, api.live)
      ensures r.Ok? ==>
                marker == Some(AtVerified)
                && (api.identity == old(api.identity) ==> api.live == Full(old(api.live), change))
      ensures api.faultless && old(api.identity) == expected ==> r.Ok? && api.identity == expected
    {
      r := CheckCurrent(expected);
      if !r.Ok? { return; }
      :- api.Add(change.tag, change.body);
      var confirmed, tags := api.Outbounds();
      if !confirmed.Ok? { return confirmed; }
      if change.tag !in tags { return Fails; }
      :- Checkpoint(AtAdded);
      :- CheckCurrent(expected);
      :- api.Select(change.balancer, change.tag);
      :- Checkpoint(AtSelected);
      if verify {
        var unhealthy := api.Obstacle();
        if unhealthy { r := AnyFailure(); return; }
      }
      :- CheckCurrent(expected);
      r := Checkpoint(AtVerified);
    }

    // Nothing fails or refuses from here on.
    predicate Undisturbed(service: Service)
      reads bundle
    {
      api.faultless && bundle.verdicts == [] && Willing(service)
    }

    // The files of the new state can be written.
    predicate CanStore(change: Change, plan: Plan)
      reads bundle, api
    {
      && plan.logical in plan.state.targets && !Collides(plan, layout)
      && Storable(bundle.policy, bundle.files, UpdatesFor(plan, layout, Full(api.live, change)))
    }

    // The runtime is where the switch expects it.
    predicate CanSwitch(change: Change, oldTarget: Tag)
      reads api
    {
      && oldTarget in api.live.handlers && change.tag !in api.live.handlers
      && change.balancer in api.live.overrides && api.live.overrides[change.balancer] in {"", oldTarget}
    }

    /** Switch the runtime, then persist what it now shows. */
    method Attempt(change: Change, plan: Plan, service: Service, verify: bool, expected: nat)
      returns (r: Reply, updates: seq<Update<Document>>, seen: Observation)
      requires bundle.journal.None? && marker.Some? && plan.logical in plan.state.targets
      modifies this`marker, api, bundle
      ensures marker.Some? && (marker == Some(AtRolledBack) ==> old(marker) == Some(AtRolledBack))
      ensures api.identity >= old(api.identity)
      ensures api.identity == old(api.identity) ==> Partial(old(api.live), change, api.live)
      ensures OldOrNew(bundle.policy, old(bundle.files), updates, bundle.Contents())
      ensures r.Ok? ==>
                && marker == Some(AtVerified)
                && (api.identity == old(api.identity) ==> api.live == Full(old(api.live), change))
                && bundle.Contents() == Store(NewFiles(bundle.policy, old(bundle.files), updates), None)
                && Loads(bundle.policy, Entries(bundle.policy, old(bundle.files), updates))
      ensures updates == []
              || (updates == UpdatesFor(plan, layout, seen) && !Collides(plan, layout) && old(api.identity) <= expected)
      ensures updates != [] && api.identity == old(api.identity) ==> seen == Full(old(api.live), change)
      ensures r.Ok? ==> updates != []
      ensures r.Fails? && bundle.journal.None? && bundle.files != old(bundle.files) ==>
                && bundle.files == NewFiles(bundle.policy, old(bundle.files), updates)
                && Loads(bundle.policy, Entries(bundle.policy, old(bundle.files), updates))
                && JournalLost(bundle.policy, old(bundle.files), updates, service, old(bundle.verdicts))
      ensures old(Undisturbed(service) && CanStore(change, plan)) && old(api.identity) == expected ==>
                r.Ok? && api.identity == expected
    {
      updates, seen := [], api.live;
      assert OldOrNew(bundle.policy, bundle.files, updates, bundle.Contents());
      r := Forward(change, verify, expected);
      if !r.Ok? { return; }
      r, seen := PrepareToPersist();
      if !r.Ok? { return; }
      if Collides(plan, layout) { return Fails, [], seen; }
      updates := UpdatesFor(plan, layout, seen);
      r := Persist(updates, service);
    }

    // Observing the targets, reading the metadata or entering the commit guard can fail before anything is written.
    method PrepareToPersist() returns (r: Reply, seen: Observation)
      modifies api
      ensures api.identity >= old(api.identity) && (api.identity == old(api.identity) ==> api.live == old(api.live))
      ensures r.Ok? ==> seen == api.live
      ensures !r.Uncertain? && (api.faultless ==> r.Ok? && api.identity == old(api.identity))
    {
      r, seen := api.Observe();
      var refused := api.Obstacle();
      if r.Ok? && refused { r := AnyFailure(); }
    }

    /** Take the runtime back: restore the previous selection, remove the new handler, record it. */
    method TakeBack(change: Change, oldTarget: Tag, previous: Tag, expected: nat, ghost before: Observation)
      returns (r: Reply)
      requires marker.Some? && previous in {"", oldTarget} && oldTarget != change.tag
      modifies this`marker, api
      ensures marker.Some? && api.identity >= old(api.identity)
      ensures r.Ok? ==> marker == Some(AtRolledBack)
      ensures (marker == Some(AtRolledBack) && old(marker) != Some(AtRolledBack) && api.identity == old(api.identity)
               && Undoable(before, change, previous, old(api.live))) ==> api.live == before
    {
      var id := api.Identity();
      if id != expected { return Fails; }
      var selected: Tag;
      r, selected := api.Target(change.balancer);
      if !r.Ok? { return; }
      if selected == change.tag {
        r := api.Select(change.balancer, previous);
        if !r.Ok? { return; }
      } else if selected != "" && selected != oldTarget {
        return Fails;
      }
      var tags: set<Tag>;
      r, tags := api.Outbounds();
      if !r.Ok? { return; }
      if change.tag in tags {
        r := api.Remove(change.tag);
        if !r.Ok? { return; }
      }
      r := Checkpoint(AtRolledBack);
    }

    // The process, the old handler, the new one and the selection are as the switch expects them.
    method CheckSwitch(change: Change, oldTarget: Tag, expected: nat) returns (r: Reply, previous: Tag)
      modifies api
      ensures api.identity >= old(api.identity) && (api.identity == old(api.identity) ==> api.live == old(api.live))
      ensures !r.Uncertain? && (r.Ok? ==> old(api.identity) <= expected && previous in {"", oldTarget})
      ensures r.Ok? && api.identity == old(api.identity) ==>
                && change.tag !in api.live.handlers
                && change.balancer in api.live.overrides && api.live.overrides[change.balancer] == previous
      ensures api.faultless && old(CanSwitch(change, oldTarget)) && old(api.identity) == expected ==>
                r.Ok? && api.identity == expected
    {
      previous := "";
      r := CheckCurrent(expected);
      if !r.Ok? { return; }
      var tags: set<Tag>;
      r, tags := api.Outbounds();
      if !r.Ok? { return; }
      if oldTarget !in tags || change.tag in tags { return Fails, previous; }
      r, previous := api.Target(change.balancer);
      if r.Ok? && previous != "" && previous != oldTarget { r := Fails; }
    }

    // A switch that failed: take it back if the files are known, and block later applies if that is not enough.
    method UndoSwitch(change: Change, oldTarget: Tag, previous: Tag, expected: nat, uncertain: bool,
                      ghost before: Observation)
      returns (r: Reply)
      requires marker.Some? && previous in {"", oldTarget} && oldTarget != change.tag
      modifies this`marker, api
      ensures marker.Some? && api.identity >= old(api.identity) && (r.Dies? || r.Fails?)
      ensures (marker == Some(AtRolledBack) && old(marker) != Some(AtRolledBack) && api.identity == old(api.identity)
               && Undoable(before, change, previous, old(api.live))) ==> api.live == before
      ensures marker == Some(AtRolledBack) && old(marker) != Some(AtRolledBack) ==> !uncertain
    {
      if !uncertain {
        r := TakeBack(change, oldTarget, previous, expected, before);
        if r.Dies? { return; }
        if r.Ok? { return Fails; }
      }
      var recorded := Checkpoint(AtRecoveryRequired);
      r := if recorded.Dies? then Dies else Fails;
    }

    /** The reversible switch.  It either completes, or leaves no marker and nothing changed, or is rolled back with
        the previous runtime, or leaves a marker that blocks every later apply. */
    method SwitchPrepared(change: Change, oldTarget: Tag, plan: Plan, service: Service, verify: bool, expected: nat)
      returns (r: Reply, updates: seq<Update<Document>>, seen: Observation)
      requires !Blocked() && oldTarget != change.tag && plan.logical in plan.state.targets
      modifies this`marker, api, bundle
      ensures api.identity >= old(api.identity)
      ensures OldOrNew(bundle.policy, old(bundle.files), updates, bundle.Contents())
      ensures (r.Ok? || updates != []) && api.identity == old(api.identity) ==> change.tag !in old(api.live).handlers
      ensures r.Ok? ==>
                && marker == Some(AtVerified)
                && (api.identity == old(api.identity) ==> api.live == Full(old(api.live), change))
                && bundle.Contents() == Store(NewFiles(bundle.policy, old(bundle.files), updates), None)
                && Loads(bundle.policy, Entries(bundle.policy, old(bundle.files), updates))
      ensures updates == []
              || (updates == UpdatesFor(plan, layout, seen) && !Collides(plan, layout) && old(api.identity) <= expected)
      ensures updates != [] && expected <= old(api.identity) ==> change.tag !in old(api.live).handlers
      ensures updates != [] && api.identity == old(api.identity) ==> seen == Full(old(api.live), change)
      ensures r.Ok? ==> updates != []
      ensures marker == None ==> !r.Ok? && bundle.Contents() == old(bundle.Contents())
      ensures (marker == None || marker == Some(AtRolledBack)) && api.identity == old(api.identity) ==>
                api.live == old(api.live)
      ensures marker == Some(AtRolledBack) && bundle.journal.None? && bundle.files != old(bundle.files) ==>
                && bundle.files == NewFiles(bundle.policy, old(bundle.files), updates)
                && Loads(bundle.policy, Entries(bundle.policy, old(bundle.files), updates))
                && JournalLost(bundle.policy, old(bundle.files), updates, service, old(bundle.verdicts))
      ensures old(Undisturbed(service) && CanStore(change, plan) && CanSwitch(change, oldTarget))
              && old(api.identity) == expected ==>
                r.Ok? && api.identity == expected
    {
      updates, seen := [], api.live;
      assert OldOrNew(bundle.policy, bundle.files, updates, bundle.Contents());
      var previous: Tag;
      r, previous := CheckSwitch(change, oldTarget, expected);
      if !r.Ok? { return; }
      r := Checkpoint(AtPrepared);
      if !r.Ok? { return; }
      ghost var before := api.live;
      r, updates, seen := Attempt(change, plan, service, verify, expected);
      if r.Ok? || r.Dies? { return; }
      r := UndoSwitch(change, oldTarget, previous, expected, r.Uncertain?, before);
    }

    method ClearMarker() returns (r: Reply)
      modifies this`marker
      ensures marker == old(marker) || marker == None
      ensures r.Ok? ==> marker == None
      ensures !r.Uncertain? && (old(marker).None? || api.faultless ==> r.Ok?)
    {
      if marker.None? { return Ok; }
      var lost := api.Obstacle();
      if !lost { marker := None; }
      r := Ok;
      var fails := api.Obstacle();
      if fails || lost { r := AnyFailure(); }
    }

    // The receipt is replaced on its own, outside the bundle.
    method WriteReceipt(receipt: Receipt, size: nat) returns (r: Reply)
      modifies bundle`files
      ensures bundle.files == old(bundle.files)
              || bundle.files == WithReceipt(old(bundle.files), bundle.policy, layout, receipt, size)
      ensures r.Ok? ==> bundle.files == WithReceipt(old(bundle.files), bundle.policy, layout, receipt, size)
      ensures !r.Uncertain? && (api.faultless ==> r.Ok?)
    {
      var lost := api.Obstacle();
      if !lost { bundle.files := WithReceipt(bundle.files, bundle.policy, layout, receipt, size); }
      r := Ok;
      var fails := api.Obstacle();
      if fails || lost { r := AnyFailure(); }
    }

    /** Detach a retained handler after the durable commit.  It never touches a selected handler or a selection, and
        unless it completes (receipt, runtime and marker together) the marker stays. */
    method DetachPrevious(state: Receipt, target: Tag, sizeOf: Document -> nat) returns (r: Reply)
      requires marker.Some?
      modifies this`marker, api, bundle`files
      ensures api.identity >= old(api.identity)
      ensures api.identity == old(api.identity) ==>
                && api.live.overrides == old(api.live).overrides
                && (api.live.handlers == old(api.live).handlers
                    || api.live.handlers == old(api.live).handlers - {target})
                && (api.live != old(api.live) ==> forall k :: k in state.targets ==> state.targets[k] != target)
      ensures bundle.files == old(bundle.files) || bundle.files ==
                WithReceipt(old(bundle.files), bundle.policy, layout, Detached(state, target),
                            sizeOf(ReceiptText(Detached(state, target))))
      ensures r.Ok? ==> marker == None
      ensures marker == None ==>
                && target in state.retained
                && bundle.files ==
                     WithReceipt(old(bundle.files), bundle.policy, layout, Detached(state, target),
                                 sizeOf(ReceiptText(Detached(state, target))))
                && (api.identity == old(api.identity) ==>
                      state.observed == old(api.live) && api.live == Detached(state, target).observed)
      ensures api.faultless && target in state.retained && target !in state.targets.Values
              && state.identity == old(api.identity) && state.observed == old(api.live)
              && target in state.observed.handlers ==>
                r.Ok?
    {
      if target !in state.retained || target in state.targets.Values { return Fails; }
      var seen: Observation;
      r, seen := api.Observe();
      if !r.Ok? { return; }
      if seen != state.observed || target !in seen.handlers { return Fails; }
      var updated := Detached(state, target);
      :- Checkpoint(AtRetiring);
      r := api.Remove(target);
      if r.Dies? { return; }
      if !r.Ok? {
        r, seen := api.Observe();
        if !r.Ok? { return; }
        if seen != updated.observed { return Fails; }
      }
      var id := api.Identity();
      if id != state.identity { return Fails; }
      r, seen := api.Observe();
      if !r.Ok? { return; }
      if seen != updated.observed { return Fails; }
      :- WriteReceipt(updated, sizeOf(ReceiptText(updated)));
      r := ClearMarker();
    }

    // The configuration is already running: check its health, or just store the chosen key text.
    method ApplyUnchanged(plan: Plan, requireHealth: bool) returns (outcome: HotOutcome, updates: seq<Update<Document>>)
      requires !Blocked()
      modifies bundle
      ensures outcome in {Noop, Unhealthy, NoopUnchecked, ApplyError, Died}
      ensures OldOrNew(bundle.policy, old(bundle.files), updates, bundle.Contents())
      ensures updates == [] || (updates == KeyUpdates(plan) && !Collides(plan, layout))
      ensures outcome in {Noop, Unhealthy} ==> bundle.Contents() == old(bundle.Contents())
      ensures outcome == ApplyError && bundle.journal.None? ==>
                bundle.files == old(bundle.files) || bundle.files == NewFiles(bundle.policy, old(bundle.files), updates)
      ensures outcome == NoopUnchecked ==>
                && updates == KeyUpdates(plan) && KeyStored(bundle.files, plan)
                && bundle.Contents() == Store(NewFiles(bundle.policy, old(bundle.files), updates), None)
      ensures api.faultless && requireHealth ==> outcome == Noop
      ensures api.faultless && !requireHealth && old(bundle.verdicts) == [] && !Collides(plan, layout)
              && Storable(bundle.policy, old(bundle.files), KeyUpdates(plan)) ==>
                outcome == NoopUnchecked
    {
      updates := [];
      if requireHealth {
        var fails := api.Obstacle();
        if fails { return ApplyError, updates; }
        var unhealthy := api.Obstacle();
        return if unhealthy then Unhealthy else Noop, updates;
      }
      var refused := api.Obstacle();
      if Collides(plan, layout) || refused { return ApplyError, updates; }
      updates := KeyUpdates(plan);
      var r := Persist(updates, NoService);
      if r.Ok? { KeyInstalled(bundle.policy, old(bundle.files), plan); }
      outcome := match r case Ok => NoopUnchecked case Dies => Died case _ => ApplyError;
    }

    // The installed receipt describes the new configuration and, in the same process, the runtime.
    ghost predicate Installed(plan: Plan, seen: Observation, detached: bool, id: nat)
      requires plan.logical in plan.state.targets
      reads this, bundle, api
    {
      && ReceiptIn(bundle.files, layout.receiptPath) == Some(FinalReceipt(plan, seen, detached))
      && (!Blocked() && api.identity == id ==> Attested(plan.desired))
    }

    // The same, whether the old handler has been struck from the receipt or not.
    ghost predicate InstalledOrDetached(plan: Plan, seen: Observation, id: nat)
      requires plan.logical in plan.state.targets
      reads this, bundle, api
    {
      Installed(plan, seen, false, id) || Installed(plan, seen, true, id)
    }

    // In a process that has not been replaced the new handler is there with its settings and selected, and nothing
    // else has changed but the old handler, once it is gone.
    predicate Serves(plan: Plan, gone: bool)
      requires plan.logical in plan.state.targets
      reads api
    {
      api.identity == plan.state.identity ==>
        && Find(plan.desired.outbounds, plan.logical).Some?
        && var tag := HandlerTag(plan.logical, Generation(plan.generation));
           var handlers := plan.state.observed.handlers[tag := Find(plan.desired.outbounds, plan.logical).value.body];
        && api.live.handlers == (if gone then handlers - {plan.state.targets[plan.logical]} else handlers)
        && api.live.overrides == plan.state.observed.overrides["bypass-choice-" + plan.logical := tag]
    }

    // The whole new state, on disk and in the core.
    predicate Arrived(plan: Plan, detached: bool)
      requires plan.logical in plan.state.targets
      reads bundle, api
    {
      && HotStored(bundle.files, layout, plan) && Serves(plan, detached)
      && ReceiptSays(ReceiptIn(bundle.files, layout.receiptPath), plan, detached)
    }

    // The same while the old handler is being detached.
    predicate Arriving(plan: Plan)
      requires plan.logical in plan.state.targets
      reads bundle, api
    {
      var receipt := ReceiptIn(bundle.files, layout.receiptPath);
      && HotStored(bundle.files, layout, plan) && (Serves(plan, false) || Serves(plan, true))
      && (ReceiptSays(receipt, plan, false) || ReceiptSays(receipt, plan, true))
    }

    // Detach the handler that the switch has left.
    method DetachOld(plan: Plan, seen: Observation) returns (r: Reply)
      requires marker == Some(AtVerified) && bundle.journal.None? && plan.logical in plan.state.targets
      requires ReceiptIn(bundle.files, layout.receiptPath) == Some(NewReceipt(plan, seen))
      requires Manageable(plan.desired, NewTargets(plan)) && plan.state.identity <= api.identity
      modifies this`marker, api, bundle`files
      ensures api.identity >= old(api.identity)
      ensures (bundle.files == old(bundle.files) && Installed(plan, seen, false, plan.state.identity))
              || (bundle.files == AfterDetach(old(bundle.files), bundle.policy, layout, plan, seen)
                  && Installed(plan, seen, true, plan.state.identity))
      ensures api.identity == old(api.identity) ==>
                || api.live == old(api.live)
                || api.live == old(api.live).(handlers := old(api.live).handlers - {plan.state.targets[plan.logical]})
      ensures r.Ok? ==> marker == None
      ensures marker == None ==> Installed(plan, seen, true, plan.state.identity)
      ensures api.faultless && old(api.identity) == plan.state.identity && seen == old(api.live)
              && OldTargetLeft(plan, seen) ==>
                r.Ok?
    {
      ghost var files := bundle.files;
      DetachedInstalled(files, bundle.policy, layout, plan, seen);
      r := DetachPrevious(NewReceipt(plan, seen), plan.state.targets[plan.logical], plan.sizeOf);
    }

    /** After the durable commit nothing is rolled back any more: detach, attest, clear the marker.  Without a marker
        the receipt describes the runtime. */
    method Finish(plan: Plan, seen: Observation, detach: bool) returns (outcome: HotOutcome)
      requires marker == Some(AtVerified) && bundle.journal.None? && plan.logical in plan.state.targets
      requires ReceiptIn(bundle.files, layout.receiptPath) == Some(NewReceipt(plan, seen))
      requires Manageable(plan.desired, NewTargets(plan))
      requires plan.state.identity <= api.identity && (api.identity == plan.state.identity ==> api.live == seen)
      modifies this`marker, api, bundle`files
      ensures api.identity >= old(api.identity)
      ensures outcome in {HotDone, HotCleanupPending, ApplyError, Died} && (outcome == HotCleanupPending ==> detach)
      ensures bundle.files == old(bundle.files)
              || (detach && bundle.files == AfterDetach(old(bundle.files), bundle.policy, layout, plan, seen))
      ensures Installed(plan, seen, false, plan.state.identity)
              || (detach && Installed(plan, seen, true, plan.state.identity))
      ensures api.identity == old(api.identity) ==>
                || api.live == old(api.live)
                || api.live == old(api.live).(handlers := old(api.live).handlers - {plan.state.targets[plan.logical]})
      ensures outcome == HotDone ==> marker == None
      ensures marker == None ==> Installed(plan, seen, detach, plan.state.identity)
      ensures api.faultless && old(api.identity) == plan.state.identity && OldTargetLeft(plan, seen) ==>
                outcome == HotDone
    {
      var deferred := false;
      if detach {
        var r := DetachOld(plan, seen);
        if r.Dies? { return Died; }
        deferred := !r.Ok?;
      }
      var refused := api.Obstacle();
      if refused { return ApplyError; }
      if !deferred && marker.Some? {
        var r := ClearMarker();
        if !r.Ok? { return if r.Dies? then Died else ApplyError; }
      }
      outcome := if deferred then HotCleanupPending else HotDone;
    }

    ghost predicate HotSettled(files: Files<Document>, plan: Plan, updates: seq<Update<Document>>, seen: Observation)
      reads bundle
    {
      HotLeaves(bundle.policy, layout, files, plan, updates, seen, bundle.Contents())
    }

    // There is a receipt with orderly tags, and if this process still runs its core has these handlers.
    predicate StillOrderly(id: nat)
      reads this, bundle, api
    {
      var receipt := ReceiptIn(bundle.files, layout.receiptPath);
      receipt.Some? && TagsOrderly(receipt.value, maxRetained) && (api.identity == id ==> Known(receipt.value))
    }

    // Nothing stands in the way of this switch.
    predicate CanGoAhead(plan: Plan, service: Service)
      requires Find(plan.desired.outbounds, plan.logical).Some?
      reads bundle, api
    {
      && Undisturbed(service) && CanStore(ChangeOf(plan), plan) && api.identity == plan.state.identity
      && CanSwitch(ChangeOf(plan), plan.state.targets[plan.logical])
    }

    // The receipt on disk, of this process or of an earlier one.
    predicate DescribedBy(state: Receipt)
      reads this, bundle, api
    {
      && !Blocked() && ReceiptIn(bundle.files, layout.receiptPath) == Some(state) && state.identity <= api.identity
      && (api.identity == state.identity ==> api.live == state.observed)
    }

    // The checks that the receipt and the new configuration decide.
    predicate Switchable(plan: Plan) {
      && plan.logical in plan.state.targets && plan.state.targets[plan.logical] != NewTag(plan)
      && Find(plan.desired.outbounds, plan.logical).Some? && |plan.state.retained| < maxRetained
      && Manageable(plan.desired, NewTargets(plan))
    }

    /** Switch and persist; only a recorded rollback clears the marker of a switch that fails. */
    method SwitchOver(plan: Plan, service: Service, requireHealth: bool)
      returns (r: Reply, updates: seq<Update<Document>>, seen: Observation)
      requires DescribedBy(plan.state) && Switchable(plan)
      modifies this`marker, api, bundle
      ensures api.identity >= old(api.identity)
      ensures OldOrNew(bundle.policy, old(bundle.files), updates, bundle.Contents())
      ensures updates != [] ==>
                updates == UpdatesFor(plan, layout, seen) && FreshSwitch(plan, layout, seen, maxRetained, api.identity)
      ensures r.Ok? ==>
                && updates != [] && marker == Some(AtVerified)
                && (api.identity == plan.state.identity ==> api.live == seen)
                && ReceiptIn(bundle.files, layout.receiptPath) == Some(NewReceipt(plan, seen))
                && bundle.Contents() == Store(NewFiles(bundle.policy, old(bundle.files), updates), None)
                && Loads(bundle.policy, Entries(bundle.policy, old(bundle.files), updates))
      ensures !r.Ok? && !r.Dies? && !Blocked() ==>
                || Unmoved(old(bundle.files), old(api.identity), old(api.live))
                || LeftUnattested(old(bundle.files), updates, service, old(bundle.verdicts))
      ensures old(CanGoAhead(plan, service)) ==>
                r.Ok? && api.identity == plan.state.identity && OldTargetLeft(plan, seen)
    {
      var oldTarget, change := plan.state.targets[plan.logical], ChangeOf(plan);
      r, updates, seen := SwitchPrepared(change, oldTarget, plan, service, requireHealth, plan.state.identity);
      if updates != [] { SwitchIsFresh(plan, layout, seen, maxRetained, old(api.identity), api.identity); }
      if r.Dies? { return; }
      if r.Ok? {
        ReceiptInstalled(bundle.policy, old(bundle.files), plan, layout, seen);
        if old(CanGoAhead(plan, service)) { OldTargetIsLeft(plan, old(api.live), change); }
        return;
      }
      if updates != [] && bundle.files != old(bundle.files) && marker == Some(AtRolledBack) && bundle.journal.None? {
        ReceiptInstalled(bundle.policy, old(bundle.files), plan, layout, seen);
        assert ReceiptIn(bundle.files, layout.receiptPath) == Some(NewReceipt(plan, seen));
      }
      if marker == Some(AtRolledBack) && bundle.journal.None? {
        var cleared := ClearMarker();
        if cleared.Dies? { r := Dies; }
      }
    }

    // The end of a switch that is durable: every exit is told in terms of the files before it.
    method FinishSwitch(plan: Plan, seen: Observation, detach: bool, ghost files: Files<Document>,
                        ghost updates: seq<Update<Document>>)
      returns (outcome: HotOutcome)
      requires marker == Some(AtVerified) && bundle.Contents() == Store(NewFiles(bundle.policy, files, updates), None)
      requires Loads(bundle.policy, Entries(bundle.policy, files, updates))
      requires FreshSwitch(plan, layout, seen, maxRetained, api.identity) && updates == UpdatesFor(plan, layout, seen)
      requires ReceiptIn(bundle.files, layout.receiptPath) == Some(NewReceipt(plan, seen))
      requires api.identity == plan.state.identity ==> api.live == seen
      modifies this`marker, api, bundle`files
      ensures api.identity >= old(api.identity)
      ensures outcome in {HotDone, HotCleanupPending, ApplyError, Died}
      ensures HotSettled(files, plan, updates, seen) && FreshSwitch(plan, layout, seen, maxRetained, api.identity)
      ensures outcome == HotDone ==> !Blocked()
      ensures !Blocked() ==> Installed(plan, seen, detach, plan.state.identity)
      ensures outcome == HotCleanupPending ==> detach
      ensures InstalledOrDetached(plan, seen, plan.state.identity)
      ensures outcome == HotDone ==> Arrived(plan, detach)
      ensures outcome == HotCleanupPending ==> Arriving(plan)
      ensures api.faultless && old(api.identity) == plan.state.identity && OldTargetLeft(plan, seen) ==>
                outcome == HotDone
    {
      ghost var switched := api.identity;
      SettledNew(bundle.policy, files, updates);
      HotInstalled(bundle.policy, files, plan, layout, seen);
      FinalSays(plan, seen, false);
      FinalSays(plan, seen, true);
      outcome := Finish(plan, seen, detach);
      FreshLater(plan, layout, seen, maxRetained, switched, api.identity);
    }

    /** Switch, persist, and once that is durable, finish. */
    method SwitchAndFinish(plan: Plan, service: Service, requireHealth: bool, detach: bool)
      returns (outcome: HotOutcome, updates: seq<Update<Document>>, seen: Observation)
      requires DescribedBy(plan.state) && Switchable(plan)
      modifies this`marker, api, bundle
      ensures api.identity >= old(api.identity)
      ensures outcome in {HotDone, HotCleanupPending, ApplyError, Died}
      ensures HotSettled(old(bundle.files), plan, updates, seen)
      ensures outcome == ApplyError && !Blocked() ==>
                || Unmoved(old(bundle.files), old(api.identity), old(api.live))
                || Installed(plan, seen, detach, plan.state.identity)
                || LeftUnattested(old(bundle.files), updates, service, old(bundle.verdicts))
      ensures outcome == HotDone ==> !Blocked() && Installed(plan, seen, detach, plan.state.identity)
      ensures outcome == HotDone ==> Arrived(plan, detach)
      ensures outcome == HotCleanupPending ==> Arriving(plan)
      ensures outcome == HotCleanupPending ==>
                detach && InstalledOrDetached(plan, seen, plan.state.identity)
      ensures updates == [] ==> outcome in {ApplyError, Died}
      ensures updates != [] ==>
                updates == UpdatesFor(plan, layout, seen) && FreshSwitch(plan, layout, seen, maxRetained, api.identity)
      ensures old(CanGoAhead(plan, service)) ==> outcome == HotDone
    {
      var r: Reply;
      r, updates, seen := SwitchOver(plan, service, requireHealth);
      if !r.Ok? { return (if r.Dies? then Died else ApplyError), updates, seen; }
      outcome := FinishSwitch(plan, seen, detach, old(bundle.files), updates);
    }

    /** The part of a hot apply after every check.  The receipt stays sound, with orderly handler tags. */
    method ApplyChanged(plan: Plan, service: Service, requireHealth: bool, detach: bool)
      returns (outcome: HotOutcome, updates: seq<Update<Document>>, seen: Observation)
      requires DescribedBy(plan.state) && Switchable(plan)
      modifies this`marker, api, bundle
      ensures api.identity >= old(api.identity)
      ensures outcome in {HotDone, HotCleanupPending, ApplyError, Died}
      ensures HotSettled(old(bundle.files), plan, updates, seen)
      ensures outcome == ApplyError && !Blocked() ==>
                || Unmoved(old(bundle.files), old(api.identity), old(api.live))
                || Installed(plan, seen, detach, plan.state.identity)
                || LeftUnattested(old(bundle.files), updates, service, old(bundle.verdicts))
      ensures outcome == HotDone ==> !Blocked() && Installed(plan, seen, detach, plan.state.identity)
      ensures outcome == HotDone ==> Arrived(plan, detach)
      ensures outcome == HotCleanupPending ==> Arriving(plan)
      ensures outcome == HotCleanupPending ==>
                detach && InstalledOrDetached(plan, seen, plan.state.identity)
      ensures Orderly(plan.state, maxRetained) ==>
                && HotFitting(bundle.policy, layout, maxRetained, api.identity, old(bundle.files), plan, updates, seen)
                && (outcome in {HotDone, HotCleanupPending} ==> StillOrderly(plan.state.identity))
      ensures old(CanGoAhead(plan, service)) ==> outcome == HotDone
    {
      outcome, updates, seen := SwitchAndFinish(plan, service, requireHealth, detach);
      if Orderly(plan.state, maxRetained) {
        if updates != [] {
          SwitchFits(bundle.policy, layout, maxRetained, api.identity, old(bundle.files), plan, seen);
        } else {
          NothingWritten(bundle.policy, layout, maxRetained, api.identity, old(bundle.files), plan, seen);
        }
      }
    }

    // The checks of a changed configuration, and then its apply.
    method ApplyDifferent(plan: Plan, service: Service, requireHealth: bool, detach: bool)
      returns (outcome: HotOutcome, updates: seq<Update<Document>>, seen: Observation)
      requires DescribedBy(plan.state) && Find(plan.desired.outbounds, plan.logical).Some?
      modifies this`marker, api, bundle
      ensures api.identity >= old(api.identity)
      ensures outcome in {HotDone, HotCleanupPending, ApplyError, Died}
      ensures HotSettled(old(bundle.files), plan, updates, seen)
      ensures outcome == ApplyError && !Blocked() ==>
                || Unmoved(old(bundle.files), old(api.identity), old(api.live))
                || (plan.logical in plan.state.targets && Installed(plan, seen, detach, plan.state.identity))
                || LeftUnattested(old(bundle.files), updates, service, old(bundle.verdicts))
      ensures outcome == HotDone ==>
                && plan.logical in plan.state.targets && Arrived(plan, detach)
                && !Blocked() && Installed(plan, seen, detach, plan.state.identity)
      ensures outcome == HotCleanupPending ==>
                && detach && plan.logical in plan.state.targets && Arriving(plan)
                && InstalledOrDetached(plan, seen, plan.state.identity)
      ensures Orderly(plan.state, maxRetained) ==>
                && HotFitting(bundle.policy, layout, maxRetained, api.identity, old(bundle.files), plan, updates, seen)
                && (outcome in {HotDone, HotCleanupPending} ==> StillOrderly(plan.state.identity))
      ensures Switchable(plan) && old(CanGoAhead(plan, service)) ==> outcome == HotDone
    {
      updates, seen := [], plan.state.observed;
      // Resource and rate budgets, validation, the isolated precheck, the ticket and the cache guard can all refuse.
      var refused := api.Obstacle();
      if refused || !Switchable(plan) {
        NothingWritten(bundle.policy, layout, maxRetained, api.identity, bundle.files, plan, seen);
        return ApplyError, updates, seen;
      }
      outcome, updates, seen := ApplyChanged(plan, service, requireHealth, detach);
    }

    // The receipt on disk describes this configuration, the running process and what its API shows.
    method AttestedState(current: Logical) returns (r: Reply, state: Option<Receipt>, seen: Observation)
      modifies api
      ensures api.identity >= old(api.identity) && (api.identity == old(api.identity) ==> api.live == old(api.live))
      ensures r.Ok? ==>
                && state.Some? && ReceiptIn(bundle.files, layout.receiptPath) == state && state.value.logical == current
                && old(api.identity) <= state.value.identity <= api.identity
                && (api.identity == state.value.identity ==> api.live == state.value.observed)
      ensures api.faultless ==> api.identity == old(api.identity) && (old(Attested(current)) ==> r.Ok?)
    {
      state, seen := ReceiptIn(bundle.files, layout.receiptPath), api.live;
      var id := api.Identity();
      if state.None? || state.value.identity != id || state.value.logical != current { return Fails, state, seen; }
      r, seen := api.Observe();
      if r.Ok? && seen != state.value.observed { r := Fails; }
    }

    // The runtime is attested, the change passes every check, and nothing stands in its way.
    ghost predicate CanApply(request: Plan, current: Logical, service: Service)
      reads this, bundle, api
    {
      && Attested(current)
      && var plan := request.(state := ReceiptIn(bundle.files, layout.receiptPath).value);
      current != plan.desired && Switchable(plan) && CanGoAhead(plan, service)
    }

    // The checks behind the attestation, and then the apply.
    method ApplyAttested(plan: Plan, current: Logical, service: Service, requireHealth: bool, detach: bool)
      returns (outcome: HotOutcome, updates: seq<Update<Document>>, seen: Observation)
      requires DescribedBy(plan.state) && plan.state.logical == current
      requires Find(plan.desired.outbounds, plan.logical).Some?
      modifies this`marker, api, bundle
      ensures api.identity >= old(api.identity) && outcome != RestartRequired
      ensures HotSettled(old(bundle.files), plan, updates, seen)
      ensures outcome in {Noop, Unhealthy} ==>
                && marker == old(marker) && bundle.Contents() == old(bundle.Contents())
                && Unmoved(old(bundle.files), old(api.identity), old(api.live))
      ensures outcome == ApplyError && !Blocked() ==>
                || Unmoved(old(bundle.files), old(api.identity), old(api.live))
                || (current == plan.desired && bundle.files == NewFiles(bundle.policy, old(bundle.files), updates))
                || (plan.logical in plan.state.targets && Installed(plan, seen, detach, plan.state.identity))
                || LeftUnattested(old(bundle.files), updates, service, old(bundle.verdicts))
      ensures outcome == HotDone ==>
                && current != plan.desired && plan.logical in plan.state.targets && Arrived(plan, detach)
                && !Blocked() && Installed(plan, seen, detach, plan.state.identity)
      ensures outcome == HotCleanupPending ==>
                && detach && current != plan.desired && plan.logical in plan.state.targets && Arriving(plan)
                && InstalledOrDetached(plan, seen, plan.state.identity)
      ensures outcome == NoopUnchecked ==>
                && current == plan.desired && updates == KeyUpdates(plan) && KeyStored(bundle.files, plan)
                && bundle.Contents() == Store(NewFiles(bundle.policy, old(bundle.files), updates), None)
      ensures Orderly(plan.state, maxRetained) ==>
                && HotFitting(bundle.policy, layout, maxRetained, api.identity, old(bundle.files), plan, updates, seen)
                && (outcome in {HotDone, HotCleanupPending} ==> StillOrderly(plan.state.identity))
      ensures old(CanApply(plan, current, service)) ==> outcome == HotDone
    {
      updates, seen := [], plan.state.observed;
      NothingWritten(bundle.policy, layout, maxRetained, api.identity, bundle.files, plan, seen);
      if current == plan.desired {
        outcome, updates := ApplyUnchanged(plan, requireHealth);
        if updates != [] && Orderly(plan.state, maxRetained) {
          KeyFits(bundle.policy, layout, maxRetained, api.identity, old(bundle.files), plan, seen);
        }
        return;
      }
      outcome, updates, seen := ApplyDifferent(plan, service, requireHealth, detach);
    }

    // The capability check, the unresolved transaction and the attestation: why an apply stops there, or its receipt.
    method Admit(c: Capability, protocol: string, current: Logical, desired: Logical)
      returns (stop: Option<HotOutcome>, state: Option<Receipt>, seen: Observation)
      modifies api
      ensures api.identity >= old(api.identity) && (api.identity == old(api.identity) ==> api.live == old(api.live))
      ensures stop.Some? ==> stop.value in {RestartRequired, ApplyError, Died}
      ensures Blocked() ==> stop in {Some(RestartRequired), Some(ApplyError)}
      ensures stop.None? ==>
                && !ApplyRequirement(c, protocol, current, desired).CommonCoreRestart?
                && state.Some? && DescribedBy(state.value) && state.value.logical == current
                && old(api.identity) <= state.value.identity
      ensures (api.faultless && old(Attested(current))
               && !ApplyRequirement(c, protocol, current, desired).CommonCoreRestart?) ==>
                stop.None? && api.identity == old(api.identity)
    {
      stop, state, seen := None, None, api.live;
      if ApplyRequirement(c, protocol, current, desired).CommonCoreRestart? {
        return Some(RestartRequired), state, seen;
      }
      if bundle.journal.Some? || marker.Some? { return Some(ApplyError), state, seen; }
      var r: Reply;
      r, state, seen := AttestedState(current);
      if !r.Ok? { return Some(if r.Dies? then Died else ApplyError), state, seen; }
      var refused := api.Obstacle();
      if refused { return Some(ApplyError), state, seen; }
      var incompatible := api.Obstacle();
      if incompatible { return Some(RestartRequired), state, seen; }
    }

    /** One hot apply, from the capability check to the cleanup. */
    method TryApply(c: Capability, protocol: string, request: Plan, current: Logical, service: Service,
                    requireHealth: bool, detach: bool)
      returns (outcome: HotOutcome, plan: Plan, updates: seq<Update<Document>>, seen: Observation)
      requires request.logical == LogicalTag(protocol)
      modifies this`marker, api, bundle
      ensures api.identity >= old(api.identity)
      ensures plan == request.(state := plan.state)
      // An unresolved earlier transaction is never touched.
      ensures old(Blocked()) ==>
                outcome in {ApplyError, RestartRequired} && marker == old(marker)
                && bundle.Contents() == old(bundle.Contents())
      // Every other exit, dying included, leaves files that are, or recover to, all old or all new.
      ensures !old(Blocked()) ==> HotSettled(old(bundle.files), plan, updates, seen)
      // No restart request and no health answer changes a file or the runtime.
      ensures outcome in {RestartRequired, Noop, Unhealthy} ==>
                && marker == old(marker) && bundle.Contents() == old(bundle.Contents())
                && Unmoved(old(bundle.files), old(api.identity), old(api.live))
      // An error that leaves no marker and no journal: nothing changed, or only an unchanged configuration's key text,
      // or the new state is installed, or the commit lost its journal and the runtime is attested for nothing.
      ensures outcome == ApplyError && !Blocked() ==>
                || Unmoved(old(bundle.files), old(api.identity), old(api.live))
                || (current == request.desired && bundle.files == NewFiles(bundle.policy, old(bundle.files), updates))
                || (plan.logical in plan.state.targets && Installed(plan, seen, detach, plan.state.identity))
                || LeftUnattested(old(bundle.files), updates, service, old(bundle.verdicts))
      // A completed hot apply started from an attested runtime, has new files, a new attested receipt and no marker.
      ensures outcome == HotDone ==>
                && plan.state.logical == current != plan.desired && plan.logical in plan.state.targets
                && ReceiptIn(old(bundle.files), layout.receiptPath) == Some(plan.state)
                && !Blocked() && Installed(plan, seen, detach, plan.state.identity)
                && Arrived(plan, detach)
      // One whose cleanup is pending has the new files and their receipt, with the old handler struck or not.
      ensures outcome == HotCleanupPending ==>
                && detach && plan.state.logical == current != plan.desired && plan.logical in plan.state.targets
                && Arriving(plan)
                && InstalledOrDetached(plan, seen, plan.state.identity)
      // An unchanged configuration whose health nobody asked for has exactly the key text and the metadata written.
      ensures outcome == NoopUnchecked ==>
                && current == plan.desired && updates == KeyUpdates(plan) && KeyStored(bundle.files, plan)
                && bundle.Contents() == Store(NewFiles(bundle.policy, old(bundle.files), updates), None)
      // Whatever the exit, the receipt that the files settle on stays sound, with orderly handler tags.
      ensures !old(Blocked()) && Fits(old(bundle.files), layout.receiptPath, maxRetained, old(api.identity)) ==>
                HotFitting(bundle.policy, layout, maxRetained, api.identity, old(bundle.files), plan, updates, seen)
      // After a switch it is there, and in an unchanged process it names handlers that the core has.
      ensures (outcome in {HotDone, HotCleanupPending} && ReceiptIn(old(bundle.files), layout.receiptPath).Some?
               && Orderly(ReceiptIn(old(bundle.files), layout.receiptPath).value, maxRetained)) ==>
                StillOrderly(old(api.identity))
      // From an attested runtime, with nothing in the way, it completes.
      ensures !ApplyRequirement(c, protocol, current, request.desired).CommonCoreRestart?
              && old(CanApply(request, current, service)) ==>
                outcome == HotDone
    {
      ghost var ready := CanApply(request, current, service);
      plan, updates := request, [];
      var stop: Option<HotOutcome>, state: Option<Receipt>;
      stop, state, seen := Admit(c, protocol, current, plan.desired);
      if stop.Some? {
        NothingWritten(bundle.policy, layout, maxRetained, api.identity, bundle.files, plan, seen);
        return stop.value, plan, updates, seen;
      }
      plan := plan.(state := state.value);
      assert ready ==> CanApply(plan, current, service);
      outcome, updates, seen := ApplyAttested(plan, current, service, requireHealth, detach);
    }

    // -------------------------------------------------------------------------------------------
    // The cold apply: a configuration that only a restart can load.

    // The disk holds this configuration, with these handler tags.
    predicate OnDisk(logical: Logical, targets: map<Tag, Tag>)
      reads bundle
    {
      ConfigIn(bundle.files, layout, logical, targets)
    }

    // What a core that is restarted into the files has.
    function TagsOnDisk(logical: Logical): set<Tag>
      reads bundle
    {
      LoadedTags(logical, TargetsFor(logical, ReceiptIn(bundle.files, layout.receiptPath)))
    }

    // Another process than that one runs the configuration on disk.
    predicate RunsFromDisk(logical: Logical, previous: nat)
      reads bundle, api
    {
      && Startable(bundle.files, layout, logical) && api.identity != previous
      && api.live.handlers.Keys == TagsOnDisk(logical)
    }

    // The runtime is attested, the new configuration passes every check, and nothing stands in its way.
    ghost predicate CanLoad(plan: Plan, current: Logical)
      reads this, bundle, api
    {
      var receipt := ReceiptIn(bundle.files, layout.receiptPath);
      && Attested(current) && OnDisk(current, TargetsFor(current, receipt)) && Undisturbed(NoService)
      && !Collides(plan, layout) && Manageable(plan.desired, TargetsFor(plan.desired, receipt))
      && CanStage(bundle.policy, bundle.files, plan, layout)
    }

    /** The attested configuration is on disk and in the running core. */
    method ConfirmsConfig(logical: Logical) returns (r: Reply)
      modifies api
      ensures api.identity >= old(api.identity) && (api.identity == old(api.identity) ==> api.live == old(api.live))
      ensures r.Ok? ==>
                && !Blocked() && ReceiptIn(bundle.files, layout.receiptPath).Some?
                && var receipt := ReceiptIn(bundle.files, layout.receiptPath).value;
                   && receipt.logical == logical && OnDisk(logical, TargetsFor(logical, Some(receipt)))
                   && old(api.identity) <= receipt.identity <= api.identity
                   && (api.identity == receipt.identity ==> api.live == receipt.observed)
      ensures api.faultless ==> api.identity == old(api.identity)
      ensures api.faultless && Attested(logical)
              && OnDisk(logical, TargetsFor(logical, ReceiptIn(bundle.files, layout.receiptPath))) ==>
                r.Ok?
    {
      if bundle.journal.Some? || marker.Some? { return Fails; }
      var receipt := ReceiptIn(bundle.files, layout.receiptPath);
      var id := api.Identity();
      if receipt.None? || receipt.value.logical != logical || receipt.value.identity != id { return Fails; }
      if !OnDisk(logical, TargetsFor(logical, receipt)) { return Fails; }
      var seen: Observation;
      r, seen := api.Observe();
      if r.Ok? && seen != receipt.value.observed { r := Fails; }
    }

    /** A new process runs exactly the configuration on disk. */
    method InspectControlledLoad(logical: Logical, previous: nat)
      returns (r: Reply, identity: nat, targets: map<Tag, Tag>, observed: Observation)
      modifies api
      ensures api.identity >= old(api.identity) && (api.identity == old(api.identity) ==> api.live == old(api.live))
      ensures !r.Uncertain? && targets == TargetsFor(logical, ReceiptIn(bundle.files, layout.receiptPath))
      ensures r.Ok? ==>
                && old(api.identity) <= identity != previous && Manageable(logical, targets) && OnDisk(logical, targets)
                && api.identity == identity && api.live == observed
                && observed.handlers.Keys == LoadedTags(logical, targets)
      ensures api.faultless && old(RunsFromDisk(logical, previous)) ==> r.Ok? && api.identity == old(api.identity)
    {
      targets, observed := TargetsFor(logical, ReceiptIn(bundle.files, layout.receiptPath)), api.live;
      identity := api.Identity();
      if identity == previous || !Manageable(logical, targets) || !OnDisk(logical, targets) {
        return Fails, identity, targets, observed;
      }
      var tags: set<Tag>;
      r, tags := api.Outbounds();
      if !r.Ok? { return; }
      if tags != LoadedTags(logical, targets) { return Fails, identity, targets, observed; }
      r, observed := api.Observe();
      if !r.Ok? { return; }
      var id := api.Identity();
      if id != identity { r := Fails; }
    }

    // What a controlled load writes down.
    ghost predicate Registers(receipt: Receipt, files: Files<Document>, logical: Logical, previous: nat,
                              generation: nat) {
      && receipt.logical == logical && receipt.generation == generation && receipt.identity != previous
      && receipt.retained == []
      && receipt.targets == TargetsFor(logical, ReceiptIn(files, layout.receiptPath))
      && receipt.observed.handlers.Keys == LoadedTags(logical, receipt.targets)
    }

    // Whatever a controlled load wrote down is orderly and describes a core that ran.
    predicate Sound(written: Option<Receipt>)
      reads api
    {
      written.Some? ==> Orderly(written.value, maxRetained) && written.value.identity <= api.identity
    }

    /** Confirm a controlled load and write its receipt; the marker goes last. */
    method RegisterControlledLoad(logical: Logical, previous: nat, generation: nat, sizeOf: Document -> nat)
      returns (r: Reply, written: Option<Receipt>)
      modifies this`marker, api, bundle`files
      ensures api.identity >= old(api.identity) && (api.identity == old(api.identity) ==> api.live == old(api.live))
      ensures !r.Uncertain? && (marker == old(marker) || marker == None)
      ensures written.None? ==> !r.Ok? && bundle.files == old(bundle.files) && marker == old(marker)
      ensures Sound(written) && (written.Some? ==> bundle.journal.None?)
      ensures written.Some? ==>
                && Registers(written.value, old(bundle.files), logical, previous, generation)
                && old(OnDisk(logical, written.value.targets))
                && api.identity >= written.value.identity >= old(api.identity)
                && (api.identity == written.value.identity ==> api.live == written.value.observed)
                && (bundle.files == old(bundle.files) || bundle.files == Loaded(old(bundle.files), written, sizeOf))
                && (r.Ok? || marker != old(marker) ==>
                      marker == None && bundle.journal.None?
                      && bundle.files == Loaded(old(bundle.files), written, sizeOf))
      ensures api.faultless && old(bundle.journal.None? && RunsFromDisk(logical, previous)) ==> r.Ok?
    {
      written := None;
      if bundle.journal.Some? { return Fails, written; }
      var identity: nat, targets: map<Tag, Tag>, observed: Observation;
      r, identity, targets, observed := InspectControlledLoad(logical, previous);
      if !r.Ok? { return; }
      var receipt := Receipt(identity, generation, logical, targets, [], observed);
      LoadedIsOrderly(receipt, maxRetained);
      written := Some(receipt);
      r := WriteReceipt(receipt, sizeOf(ReceiptText(receipt)));
      if !r.Ok? { return; }
      var refused := api.Obstacle();
      if refused { r := AnyFailure(); return; }
      r := ClearMarker();
    }

    function Loaded(files: Files<Document>, written: Option<Receipt>, sizeOf: Document -> nat): Files<Document> {
      WithLoad(files, bundle.policy, layout, written, sizeOf)
    }

    /** Commit the cold bundle: the core must restart into the staged files before they become durable. */
    method CommitCold(desired: Logical, previous: nat) returns (outcome: Outcome<()>, started: bool, ghost ack: Ack)
      requires bundle.journal.Some?
      modifies api, bundle
      ensures api.identity >= old(api.identity)
      ensures Ran(bundle.Contents(), outcome, bundle.verdicts) ==
                ApplyJournal.Commit(bundle.policy, old(bundle.Contents()), ack, old(bundle.verdicts))
      ensures started <==> Stage(bundle.policy, old(bundle.Contents()), old(bundle.verdicts)).outcome.Returned?
      ensures ack != Absent
      ensures old(Undisturbed(NoService)) && previous <= old(api.identity) ==>
                var staged := Stage(bundle.policy, old(bundle.Contents()), []);
                staged.outcome.Returned? && staged.rest == [] && staged.store.journal.Some?
                && Startable(staged.store.files, layout, desired) ==>
                  outcome.Returned? && RunsFromDisk(desired, previous)
    {
      started, ack := false, Answer(true);
      outcome := bundle.Stage();
      if !outcome.Returned? { return; }
      started := true;
      var answer := api.Restart(TagsOnDisk(desired));
      ack := answer;
      if answer == Answer(true) {
        var r, identity, targets, observed := InspectControlledLoad(desired, previous);
        if r.Dies? { return Crashed, started, DiesInside; }
        if !r.Ok? { return Raised, started, Throws; }
      }
      if answer == DiesInside { return Crashed, started, ack; }
      if answer != Answer(true) { return Raised, started, ack; }
      outcome := bundle.Seal();
    }

    ghost predicate ColdSettled(files: Files<Document>, updates: seq<Update<Document>>, written: Option<Receipt>,
                                sizeOf: Document -> nat)
      reads bundle
    {
      ColdLeaves(bundle.policy, layout, files, updates, written, sizeOf, bundle.Contents())
    }

    // All files are new, and a receipt of the desired configuration describes the restarted core.
    ghost predicate ColdDone(files: Files<Document>, plan: Plan, updates: seq<Update<Document>>,
                             written: Option<Receipt>, previous: nat)
      reads this, bundle, api
    {
      && !Blocked() && written.Some? && written.value.logical == plan.desired
      && written.value.generation == plan.generation
      && written.value.identity != previous
      && bundle.files == Loaded(NewFiles(bundle.policy, files, updates), written, plan.sizeOf)
      && (api.identity == written.value.identity ==> Attested(plan.desired))
    }

    // All files are old; if the core was restarted, a receipt of the current configuration describes it.
    ghost predicate ColdUndone(files: Files<Document>, current: Logical, plan: Plan, written: Option<Receipt>)
      reads this, bundle, api
    {
      && !Blocked() && bundle.files == Loaded(files, written, plan.sizeOf)
      && (written.Some? ==>
            written.value.logical == current && (api.identity == written.value.identity ==> Attested(current)))
    }

    // The key, the metadata and the configuration with the tags of the written receipt are on disk, and so is that
    // receipt, provided that its file is neither of the first two.
    ghost predicate ColdStored(plan: Plan, written: Option<Receipt>)
      reads bundle
    {
      && written.Some? && ReceiptIn(bundle.files, layout.receiptPath) == written
      && (layout.receiptPath != layout.configPath && layout.receiptPath != plan.keyPath ==>
            KeyStored(bundle.files, plan) && ConfigIn(bundle.files, layout, plan.desired, written.value.targets))
    }

    method RecoverFiles(ghost files: Files<Document>, ghost updates: seq<Update<Document>>, ghost lost: bool)
      returns (outcome: Outcome<Recovery>)
      requires RecoversTo(bundle.policy, files, updates, lost,
                          ApplyJournal.Recover(bundle.policy, bundle.Contents(), bundle.verdicts))
      modifies bundle
      ensures RecoversTo(bundle.policy, files, updates, lost, Ran(bundle.Contents(), outcome, bundle.verdicts))
      ensures outcome.Raised? || outcome.Crashed? ==> OldOrNew(bundle.policy, files, updates, bundle.Contents())
    {
      outcome := bundle.Recover();
    }

    /** After a raised commit: recover the files, and restart the core into whatever they are now. */
    method RecoverCold(plan: Plan, current: Logical, previous: nat, started: bool,
                       ghost files: Files<Document>, ghost updates: seq<Update<Document>>, ghost lost: bool)
      returns (outcome: ColdOutcome, written: Option<Receipt>)
      requires marker.Some? && previous <= api.identity && (lost ==> started) && !Collides(plan, layout)
      requires updates == ColdUpdates(plan, layout, ReceiptIn(files, layout.receiptPath))
      requires RecoversTo(bundle.policy, files, updates, lost,
                          ApplyJournal.Recover(bundle.policy, bundle.Contents(), bundle.verdicts))
      modifies this`marker, api, bundle
      ensures api.identity >= old(api.identity)
      ensures outcome in {Cold, ColdRestored, ColdUncertain, ColdDied}
      ensures ColdSettled(files, updates, written, plan.sizeOf) && Sound(written)
      ensures outcome == Cold ==> ColdDone(files, plan, updates, written, previous) && ColdStored(plan, written)
      ensures outcome == ColdRestored || (outcome == ColdUncertain && !Blocked()) ==>
                || ColdUndone(files, current, plan, written)
                || (lost && current == plan.desired && ColdDone(files, plan, updates, written, previous))
                || (outcome == ColdUncertain && ColdDone(files, plan, updates, written, previous))
    {
      written := None;
      var recovered := RecoverFiles(files, updates, lost);
      if recovered.Crashed? { return ColdDied, written; }
      if recovered.Raised? { return ColdUncertain, written; }
      var r: Reply;
      if recovered.result == WasCommitted {
        r, written := RegisterDesired(plan, previous, files, updates);
        return (if r.Ok? then Cold else if r.Dies? then ColdDied else ColdUncertain), written;
      }
      r, written := RestartRecovered(plan, current, started, files, updates);
      outcome := if r.Ok? then ColdRestored else if r.Dies? then ColdDied else ColdUncertain;
    }

    // The bundle is installed: register the restarted core.
    method RegisterDesired(plan: Plan, previous: nat, ghost files: Files<Document>,
                           ghost updates: seq<Update<Document>>)
      returns (r: Reply, written: Option<Receipt>)
      requires marker.Some? && bundle.Contents() == Store(NewFiles(bundle.policy, files, updates), None)
      requires Loads(bundle.policy, Entries(bundle.policy, files, updates)) && !Collides(plan, layout)
      requires updates == ColdUpdates(plan, layout, ReceiptIn(files, layout.receiptPath))
      modifies this`marker, api, bundle`files
      ensures api.identity >= old(api.identity)
      ensures ColdSettled(files, updates, written, plan.sizeOf) && Sound(written)
      ensures r.Ok? || !Blocked() ==> ColdDone(files, plan, updates, written, previous)
      ensures r.Ok? ==> ColdStored(plan, written)
      ensures api.faultless && old(RunsFromDisk(plan.desired, previous)) ==> r.Ok?
    {
      r, written := RegisterControlledLoad(plan.desired, previous, plan.generation, plan.sizeOf);
      if layout.receiptPath != layout.configPath && layout.receiptPath != plan.keyPath {
        ColdInstalled(bundle.policy, files, plan, layout, ReceiptIn(files, layout.receiptPath), written);
        ReceiptUntouched(bundle.policy, files, plan, layout);
      }
    }

    // The journal is gone and the commit did not count: if the core was restarted, restart it again.
    method RestartRecovered(plan: Plan, current: Logical, started: bool, ghost files: Files<Document>,
                            ghost updates: seq<Update<Document>>)
      returns (r: Reply, written: Option<Receipt>)
      requires marker.Some? && bundle.journal.None?
      requires updates == ColdUpdates(plan, layout, ReceiptIn(files, layout.receiptPath))
      requires bundle.files == files
               || (started && bundle.files == NewFiles(bundle.policy, files, updates)
                   && Loads(bundle.policy, Entries(bundle.policy, files, updates)))
      modifies this`marker, api, bundle`files
      ensures api.identity >= old(api.identity)
      ensures bundle.files == Loaded(old(bundle.files), written, plan.sizeOf) || bundle.files == old(bundle.files)
      ensures Sound(written) && (r.Ok? ==> !Blocked())
      ensures !Blocked() ==>
                && bundle.files == Loaded(old(bundle.files), written, plan.sizeOf)
                && (written.Some? <==> started)
                && (written.Some? ==>
                      && written.value.logical == current && written.value.generation == plan.generation
                      && written.value.identity > old(api.identity)
                      && (api.identity == written.value.identity ==> Attested(current)))
                && (old(bundle.files) == files || current == plan.desired)
    {
      written := None;
      if bundle.files != files { UpdateInstalled(bundle.policy, files, updates, 1); }
      if started {
        var failed := api.Identity();
        var ack := api.Restart(TagsOnDisk(current));
        if ack != Answer(true) { return (if ack == DiesInside then Dies else Fails), written; }
        r, written := RegisterControlledLoad(current, failed, plan.generation, plan.sizeOf);
        if !r.Ok? { return; }
      }
      r := ClearMarker();
    }

    // Write the files, restart into them and make them durable.  `lost` is a commit whose last sync fails.
    method PrepareAndCommit(desired: Logical, previous: nat, updates: seq<Update<Document>>)
      returns (outcome: Outcome<()>, started: bool, ghost lost: bool)
      requires bundle.journal.None?
      modifies api, bundle
      ensures api.identity >= old(api.identity) && (lost ==> started)
      ensures outcome.Crashed? ==> OldOrNew(bundle.policy, old(bundle.files), updates, bundle.Contents())
      ensures outcome.Returned? ==>
                && bundle.Contents() == Store(NewFiles(bundle.policy, old(bundle.files), updates), None)
                && Loads(bundle.policy, Entries(bundle.policy, old(bundle.files), updates))
      ensures outcome.Raised? ==>
                RecoversTo(bundle.policy, old(bundle.files), updates, lost,
                           ApplyJournal.Recover(bundle.policy, bundle.Contents(), bundle.verdicts))
      ensures old(Undisturbed(NoService)) && previous <= old(api.identity)
              && Storable(bundle.policy, old(bundle.files), updates)
              && Startable(NewFiles(bundle.policy, old(bundle.files), updates), layout, desired) ==>
                outcome.Returned? && RunsFromDisk(desired, previous)
    {
      ghost var files, verdicts, policy := bundle.files, bundle.verdicts, bundle.policy;
      if Storable(policy, files, updates) { ColdStages(policy, files, updates); }
      started, lost := false, false;
      outcome := PrepareFiles(updates);
      if !outcome.Returned? {
        RecoverSettles(policy, files, bundle.Contents(), bundle.verdicts);
        return;
      }
      ghost var s := bundle.Contents();
      ghost var ack;
      outcome, started, ack := CommitCold(desired, previous);
      AfterCommit(policy, files, updates, ack, Tail(verdicts), bundle.verdicts);
      lost := outcome.Raised? && ClearLost(policy, s, ack, Tail(verdicts));
    }

    // The unresolved transaction, the attestation and the budgets: why a cold apply stops there, or its marker.
    method AdmitCold(plan: Plan, current: Logical) returns (stop: Option<ColdOutcome>, previous: nat)
      modifies this`marker, api
      ensures api.identity >= old(api.identity)
      ensures stop.Some? ==> stop.value in {ColdRefused, ColdDied}
      ensures old(Blocked()) ==> stop.Some? && marker == old(marker)
      ensures stop.None? ==>
                marker == Some(AtColdPrepared) && bundle.journal.None? && !Collides(plan, layout)
                && previous <= api.identity
      ensures old(CanLoad(plan, current)) ==> stop.None?
    {
      stop, previous := None, api.identity;
      var r := ConfirmsConfig(current);
      if !r.Ok? { return Some(if r.Dies? then ColdDied else ColdRefused), previous; }
      var refused := api.Obstacle();
      var candidate := TargetsFor(plan.desired, ReceiptIn(bundle.files, layout.receiptPath));
      if refused || !Manageable(plan.desired, candidate) { return Some(ColdRefused), previous; }
      r := ConfirmsConfig(current);
      if !r.Ok? { return Some(if r.Dies? then ColdDied else ColdRefused), previous; }
      previous := api.Identity();
      refused := api.Obstacle();
      if Collides(plan, layout) || refused { return Some(ColdRefused), previous; }
      r := Checkpoint(AtColdPrepared);
      if !r.Ok? { stop := Some(if r.Dies? then ColdDied else ColdRefused); }
    }

    /** Load a configuration that only a restart can apply, or restore the previous one. */
    method ApplyCold(plan: Plan, current: Logical)
      returns (outcome: ColdOutcome, updates: seq<Update<Document>>, written: Option<Receipt>,
               previous: nat, ghost lost: bool)
      modifies this`marker, api, bundle
      ensures api.identity >= old(api.identity)
      // An unresolved earlier transaction is never touched, and a refusal changes no file.
      ensures old(Blocked()) ==> outcome in {ColdRefused, ColdDied} && marker == old(marker)
      ensures outcome == ColdRefused || old(Blocked()) ==> bundle.Contents() == old(bundle.Contents())
      // Every other exit leaves a disk that is, or recovers to, all files old or all files new.
      ensures !old(Blocked()) ==> ColdSettled(old(bundle.files), updates, written, plan.sizeOf)
      // Whichever they are, the receipt on disk stays sound, and so is one that a restart wrote.
      ensures Sound(written)
      ensures !old(Blocked()) && Fits(old(bundle.files), layout.receiptPath, maxRetained, old(api.identity)) ==>
                && Fits(old(bundle.files), layout.receiptPath, maxRetained, api.identity)
                && (Loads(bundle.policy, Entries(bundle.policy, old(bundle.files), updates)) ==>
                      Fits(NewFiles(bundle.policy, old(bundle.files), updates), layout.receiptPath, maxRetained,
                           api.identity))
      // Success and the "restored" error mean what they say, except that "restored" also covers a bundle whose
      // configuration was already current and whose journal was lost at the last sync.
      ensures outcome == Cold ==>
                ColdDone(old(bundle.files), plan, updates, written, previous) && ColdStored(plan, written)
      ensures outcome == ColdRestored ==>
                || ColdUndone(old(bundle.files), current, plan, written)
                || (lost && current == plan.desired && ColdDone(old(bundle.files), plan, updates, written, previous))
      // Any other failure is one of those two or blocks every later apply.
      ensures outcome in {ColdUncertain, ColdFailed} && !Blocked() ==>
                || ColdUndone(old(bundle.files), current, plan, written)
                || ColdDone(old(bundle.files), plan, updates, written, previous)
      // From an attested runtime, with nothing in the way, it succeeds.
      ensures old(CanLoad(plan, current)) ==> outcome == Cold
    {
      ghost var ready := CanLoad(plan, current);
      updates, written, lost := [], None, false;
      var stop: Option<ColdOutcome>;
      stop, previous := AdmitCold(plan, current);
      if stop.Some? { return stop.value, updates, written, previous, lost; }
      updates := ColdUpdates(plan, layout, ReceiptIn(bundle.files, layout.receiptPath));
      ghost var files := bundle.files;
      ghost var before := ReceiptIn(files, layout.receiptPath);
      forall id | Fits(files, layout.receiptPath, maxRetained, id)
        && Loads(bundle.policy, Entries(bundle.policy, files, updates))
        ensures Fits(NewFiles(bundle.policy, files, updates), layout.receiptPath, maxRetained, id)
      {
        ColdFits(bundle.policy, files, plan, layout, before, maxRetained, id);
      }
      if ready { ColdStartable(bundle.policy, files, plan, layout); }
      var committed, started;
      committed, started, lost := PrepareAndCommit(plan.desired, previous, updates);
      if committed.Crashed? { return ColdDied, updates, written, previous, lost; }
      if committed.Raised? {
        outcome, written := RecoverCold(plan, current, previous, started, files, updates, lost);
        return;
      }
      var r: Reply;
      r, written := RegisterDesired(plan, previous, files, updates);
      outcome := if r.Ok? then Cold else if r.Dies? then ColdDied else ColdFailed;
    }
  }

  lemma RecoverOldOrNew(policy: Policy, files: Files<Document>, updates: seq<Update<Document>>, s: Store<Document>,
                        vs: seq<Verdict>)
    requires OldOrNew(policy, files, updates, s)
    ensures var after := Recover(policy, s, vs);
      && OldOrNew(policy, files, updates, after.store)
      && (after.outcome.Returned? ==>
            after.store == Store(files, None) || after.store == Store(NewFiles(policy, files, updates), None))
  {
    var settled := if Settling(policy, files, s) then files else NewFiles(policy, files, updates);
    RecoverSettles(policy, settled, s, vs);
  }

  /** The recovery at startup, after a hot apply ended anywhere: when it completes there is no journal, and all files
      are old, or all new, or all new with the old handler struck from the receipt; when it stops it can be repeated. */
  lemma StartupRecovery(policy: Policy, layout: Layout, files: Files<Document>, plan: Plan,
                        updates: seq<Update<Document>>,
                        seen: Observation, s: Store<Document>, vs: seq<Verdict>)
    requires HotLeaves(policy, layout, files, plan, updates, seen, s)
    ensures var after := Recover(policy, s, vs);
      && HotLeaves(policy, layout, files, plan, updates, seen, after.store)
      && (after.outcome.Returned? ==>
            && after.store.journal.None?
            && (|| after.store.files == files || after.store.files == NewFiles(policy, files, updates)
                || (plan.logical in plan.state.targets
                    && after.store.files == AfterDetach(NewFiles(policy, files, updates), policy, layout, plan, seen))))
  {
    if OldOrNew(policy, files, updates, s) { RecoverOldOrNew(policy, files, updates, s, vs); }
  }

  /** The same after a cold apply: all files are old or all are new, either with the receipt of a controlled load. */
  lemma ColdStartupRecovery(policy: Policy, layout: Layout, files: Files<Document>, updates: seq<Update<Document>>,
                            written: Option<Receipt>, sizeOf: Document -> nat, s: Store<Document>, vs: seq<Verdict>)
    requires ColdLeaves(policy, layout, files, updates, written, sizeOf, s)
    ensures var after := Recover(policy, s, vs);
      && ColdLeaves(policy, layout, files, updates, written, sizeOf, after.store)
      && (after.outcome.Returned? ==>
            && after.store.journal.None?
            && (|| after.store.files == files || after.store.files == NewFiles(policy, files, updates)
                || after.store.files == WithLoad(files, policy, layout, written, sizeOf)
                || after.store.files == WithLoad(NewFiles(policy, files, updates), policy, layout, written, sizeOf)))
  {
    if OldOrNew(policy, files, updates, s) { RecoverOldOrNew(policy, files, updates, s, vs); }
  }

  lemma CommitLeaves(policy: Policy, files: Files<Document>, updates: seq<Update<Document>>, ack: Ack,
                     vs: seq<Verdict>)
    requires Settling(policy, files, Journalled(policy, files, updates))
    ensures var s := Journalled(policy, files, updates); var c := Commit(policy, s, ack, vs);
      && OldOrNew(policy, files, updates, c.store)
      && (c.outcome.Returned? ==>
            c.store == Store(NewFiles(policy, files, updates), None) && Loads(policy, Entries(policy, files, updates)))
  {
    var s := Journalled(policy, files, updates);
    StageSettles(policy, files, s, vs);
    CommitSettles(policy, files, s, ack, vs);
  }

  // After a commit that raised: what a recovery with faults of its own yields.
  lemma RaisedRecovers(policy: Policy, files: Files<Document>, updates: seq<Update<Document>>, ack: Ack,
                       vs: seq<Verdict>, more: seq<Verdict>)
    requires Settling(policy, files, Journalled(policy, files, updates))
    requires Commit(policy, Journalled(policy, files, updates), ack, vs).outcome.Raised?
    ensures var s := Journalled(policy, files, updates);
      RecoversTo(policy, files, updates, ClearLost(policy, s, ack, vs),
                 Recover(policy, Commit(policy, s, ack, vs).store, more))
  {
    var s := Journalled(policy, files, updates);
    var c := Commit(policy, s, ack, vs);
    StageSettles(policy, files, s, vs);
    CommitSettles(policy, files, s, ack, vs);
    var settled := if Sealed(policy, s, CallCommit(ack, vs)) then NewFiles(policy, files, updates) else files;
    RecoverSettles(policy, settled, c.store, more);
  }

  /** Every end of a commit: died, the disk settles on old or new; returned, the whole bundle is installed and the
      journal gone; raised, a recovery with faults of its own yields what RecoversTo says. */
  lemma AfterCommit(policy: Policy, files: Files<Document>, updates: seq<Update<Document>>, ack: Ack, vs: seq<Verdict>,
                    more: seq<Verdict>)
    requires Settling(policy, files, Journalled(policy, files, updates))
    ensures var s := Journalled(policy, files, updates); var c := Commit(policy, s, ack, vs);
      && OldOrNew(policy, files, updates, c.store)
      && (c.outcome.Returned? ==>
            c.store == Store(NewFiles(policy, files, updates), None) && Loads(policy, Entries(policy, files, updates)))
      && (c.outcome.Raised? ==>
            RecoversTo(policy, files, updates, ClearLost(policy, s, ack, vs), Recover(policy, c.store, more)))
  {
    CommitLeaves(policy, files, updates, ack, vs);
    if Commit(policy, Journalled(policy, files, updates), ack, vs).outcome.Raised? {
      RaisedRecovers(policy, files, updates, ack, vs, more);
    }
  }
}
