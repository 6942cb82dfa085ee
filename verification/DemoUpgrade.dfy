/** The forward-only upgrade of a prepared demo: a plan file, a backup, a migration
    and two configuration files, each step of which may be the last before a crash. */
module DemoUpgrade {
  import opened Common

  const OLDEST := 5
  const HEAD := 7

  /** state.json. `images` stands for the four environment values that an upgrade
      replaces, `other` for everything it keeps. */
  datatype Doc = Doc(identity: Option<Id>, images: Id, other: Id)

  /** compose.env, rendered from the environment in a state document. */
  datatype EnvFile = EnvFile(images: Id, other: Id)

  function EnvOf(d: Doc): EnvFile {
    EnvFile(d.images, d.other)
  }

  datatype Phase = Built | BackedUp

  /** upgrade.pending.json. */
  datatype Plan = Plan(identity: Id, target: Doc, previous: Doc, phase: Phase, backup: Option<Id>, privateFiles: Option<Id>)

  /** A backup directory; the manifest is written last. `dump` is the schema version in the dump. */
  datatype Backup = Backup(privateFiles: Option<Id>, state: Option<Doc>, env: Option<EnvFile>, dump: Option<nat>, manifest: bool)

  datatype FileName = PlanFile | StateFile | EnvironmentFile

  /** Everything that survives a crash. `temporary` are the ".new" files lying about;
      `baseline` remembers, for the statements below, the schema when the pending plan
      was first recorded. */
  datatype Disk = Disk(
    state: Doc, env: EnvFile, privateFiles: Id, pending: Option<Plan>, temporary: set<FileName>, backups: map<Id, Backup>,
    builtImages: set<Id>, schema: nat, running: Option<Id>, history: set<Plan>, baseline: nat)

  function TargetOf(previous: Doc, identity: Id, suffix: Id): Doc {
    Doc(Some(identity), suffix, previous.other)
  }

  // ----- the program, one effect at a time -----

  datatype Pc =
    | Checking
    | Building
    | PlanTemp(plan: Plan) | PlanSwap(plan: Plan)
    | Images(plan: Plan)
    | BackupOpen(plan: Plan) | BackupPrivate(plan: Plan) | BackupState(plan: Plan) | BackupEnv(plan: Plan)
    | BackupDump(plan: Plan) | BackupManifest(plan: Plan)
    | Audit(plan: Plan)
    | Quiesce(plan: Plan)
    | Migrate(plan: Plan)
    | StateTemp(plan: Plan) | StateSwap(plan: Plan)
    | EnvTemp(plan: Plan) | EnvSwap(plan: Plan)
    | Up(plan: Plan)
    | Accept(plan: Plan)
    | Archive(plan: Plan)
    | Finished
    | Failed

  /** One process: what it upgrades to, the identifiers it will draw, and where it is. */
  datatype Run = Run(identity: Id, suffix: Id, directory: Id, pc: Pc)

  function Complete(b: Backup): bool {
    b.manifest && b.privateFiles.Some? && b.state.Some? && b.env.Some? && b.dump.Some?
  }

  function FileBackup(d: Disk, directory: Id, b: Backup): Disk {
    d.(backups := d.backups[directory := b])
  }

  function BackupAt(d: Disk, directory: Id): Backup {
    if directory in d.backups then d.backups[directory] else Backup(None, None, None, None, false)
  }

  function Next(d: Disk, run: Run): (Disk, Pc) {
    match run.pc
    case Checking =>
      if d.schema < OLDEST || d.schema > HEAD then (d, Failed)
      else if d.pending.Some? then (d, if d.pending.value.identity == run.identity then Images(d.pending.value) else Failed)
      else if d.state.identity == Some(run.identity) then (d, Finished)
      else (d, Building)
    case Building =>
      var plan := Plan(run.identity, TargetOf(d.state, run.identity, run.suffix), d.state, Built, None, None);
      (d.(builtImages := d.builtImages + {run.suffix}), PlanTemp(plan))
    case PlanTemp(plan) => (d.(temporary := d.temporary + {PlanFile}), PlanSwap(plan))
    case PlanSwap(plan) =>
      var d1 := d.(temporary := d.temporary - {PlanFile}, pending := Some(plan));
      if plan.phase.Built? then (d1.(baseline := d.schema), Images(plan)) else (d1, Audit(plan))
    case Images(plan) =>
      if plan.target.images !in d.builtImages then (d, Failed)
      else (d, if plan.phase.Built? then BackupOpen(plan) else Audit(plan))
    case BackupOpen(plan) =>
      if run.directory in d.backups then (d, Failed)
      else (FileBackup(d, run.directory, Backup(None, None, None, None, false)).(running := None), BackupPrivate(plan))
    case BackupPrivate(plan) =>
      (FileBackup(d, run.directory, BackupAt(d, run.directory).(privateFiles := Some(d.privateFiles))), BackupState(plan))
    case BackupState(plan) => (FileBackup(d, run.directory, BackupAt(d, run.directory).(state := Some(d.state))), BackupEnv(plan))
    case BackupEnv(plan) => (FileBackup(d, run.directory, BackupAt(d, run.directory).(env := Some(d.env))), BackupDump(plan))
    case BackupDump(plan) => (FileBackup(d, run.directory, BackupAt(d, run.directory).(dump := Some(d.schema))), BackupManifest(plan))
    case BackupManifest(plan) =>
      (FileBackup(d, run.directory, BackupAt(d, run.directory).(manifest := true)),
       PlanTemp(plan.(phase := BackedUp, backup := Some(run.directory), privateFiles := Some(d.privateFiles))))
    case Audit(plan) =>
      if plan.backup.None? || !Complete(BackupAt(d, plan.backup.value)) || plan.privateFiles != Some(d.privateFiles) then (d, Failed)
      else (d, Quiesce(plan))
    case Quiesce(plan) => (d.(running := None), Migrate(plan))
    case Migrate(plan) => if d.schema < HEAD then (d.(schema := d.schema + 1), Migrate(plan)) else (d, StateTemp(plan))
    case StateTemp(plan) => (d.(temporary := d.temporary + {StateFile}), StateSwap(plan))
    case StateSwap(plan) => (d.(temporary := d.temporary - {StateFile}, state := plan.target), EnvTemp(plan))
    case EnvTemp(plan) => (d.(temporary := d.temporary + {EnvironmentFile}), EnvSwap(plan))
    case EnvSwap(plan) => (d.(temporary := d.temporary - {EnvironmentFile}, env := EnvOf(plan.target)), Up(plan))
    case Up(plan) => (d.(running := Some(plan.target.images)), Accept(plan))
    case Accept(plan) => (d, Archive(plan))
    case Archive(plan) => (d.(pending := None, history := d.history + {plan}), Finished)
    case Finished => (d, Finished)
    case Failed => (d, Failed)
  }

  // ----- worlds, crashes and re-runs -----

  datatype World = World(disk: Disk, run: Option<Run>)

  datatype Action = Launch(identity: Id, suffix: Id, directory: Id) | Step | Crash

  /** One operation at a time (the lock dies with its process); drawn identifiers are new. */
  predicate Possible(w: World, act: Action) {
    match act
    case Launch(_, suffix, directory) =>
      w.run.None? && suffix !in w.disk.builtImages && suffix != w.disk.state.images && directory !in w.disk.backups
    case Step => w.run.Some?
    case Crash => true
  }

  function Apply(w: World, act: Action): World {
    match act
    case Launch(identity, suffix, directory) => World(w.disk, Some(Run(identity, suffix, directory, Checking)))
    case Step =>
      if w.run.None? then w
      else
        var (d, pc) := Next(w.disk, w.run.value);
        World(d, if pc.Finished? || pc.Failed? then None else Some(w.run.value.(pc := pc)))
    case Crash => World(w.disk, None)
  }

  ghost predicate Prepared(d: Disk) {
    d.env == EnvOf(d.state) && d.pending == None && OLDEST <= d.schema <= HEAD
  }

  ghost predicate Follows(trace: seq<World>, acts: seq<Action>) {
    && |trace| == |acts| + 1 && Prepared(trace[0].disk) && trace[0].run == None
    && forall i :: 0 <= i < |acts| ==> Possible(trace[i], acts[i]) && trace[i + 1] == Apply(trace[i], acts[i])
  }

  // ----- the invariant -----

  ghost predicate Aims(d: Disk, plan: Plan) {
    && plan.target == TargetOf(plan.previous, plan.identity, plan.target.images)
    && plan.target.images != plan.previous.images && plan.target.images in d.builtImages
    && plan.previous.identity != Some(plan.identity)
  }

  /** A finished backup of the configuration and schema the plan started from. */
  ghost predicate BackupOf(d: Disk, plan: Plan, directory: Id) {
    directory in d.backups
    && d.backups[directory] == Backup(Some(d.privateFiles), Some(plan.previous), Some(EnvOf(plan.previous)), Some(d.baseline), true)
  }

  ghost predicate PlanOk(d: Disk, plan: Plan) {
    && Aims(d, plan) && OLDEST <= d.baseline <= d.schema
    && match plan.phase
       case Built => d.state == plan.previous && d.env == EnvOf(plan.previous) && d.schema == d.baseline && plan.backup.None? && plan.privateFiles.None?
       case BackedUp =>
         && plan.backup.Some? && BackupOf(d, plan, plan.backup.value) && plan.privateFiles == Some(d.privateFiles)
         && (d.state == plan.previous || d.state == plan.target)
         && (d.env == EnvOf(plan.previous) || (d.env == EnvOf(plan.target) && d.state == plan.target))
         && (d.state == plan.target ==> d.schema == HEAD)
  }

  ghost predicate DiskOk(d: Disk) {
    && OLDEST <= d.schema <= HEAD
    && if d.pending.Some? then PlanOk(d, d.pending.value) else d.env == EnvOf(d.state)
  }

  /** What has been copied so far, while the backup is under way. */
  ghost predicate Copied(d: Disk, run: Run, plan: Plan, files: nat) {
    && d.pending == Some(plan) && plan.phase.Built? && run.directory in d.backups
    && d.backups[run.directory] == Backup(
         if files >= 1 then Some(d.privateFiles) else None, if files >= 2 then Some(d.state) else None,
         if files >= 3 then Some(d.env) else None, if files >= 4 then Some(d.schema) else None, false)
  }

  ghost predicate Saving(d: Disk, run: Run, plan: Plan) {
    match plan.phase
    case Built => d.pending == None && Aims(d, plan) && plan.previous == d.state && plan.identity == run.identity && plan.backup.None? && plan.privateFiles.None?
    case BackedUp => d.pending == Some(plan.(phase := Built, backup := None, privateFiles := None))
                     && plan.backup.Some? && BackupOf(d, plan, plan.backup.value) && plan.privateFiles == Some(d.privateFiles)
  }

  ghost predicate Secured(d: Disk, plan: Plan) {
    d.pending == Some(plan) && plan.phase.BackedUp?
  }

  ghost predicate RunOk(d: Disk, run: Run) {
    match run.pc
    case Checking => run.suffix != d.state.images && run.directory !in d.backups
    case Building => d.pending == None && d.state.identity != Some(run.identity) && run.suffix != d.state.images && run.directory !in d.backups
    case PlanTemp(plan) => Saving(d, run, plan) && (plan.phase.Built? ==> run.directory !in d.backups)
    case PlanSwap(plan) => Saving(d, run, plan) && (plan.phase.Built? ==> run.directory !in d.backups)
    case Images(plan) => d.pending == Some(plan) && run.directory !in d.backups
    case BackupOpen(plan) => d.pending == Some(plan) && plan.phase.Built? && run.directory !in d.backups
    case BackupPrivate(plan) => Copied(d, run, plan, 0)
    case BackupState(plan) => Copied(d, run, plan, 1)
    case BackupEnv(plan) => Copied(d, run, plan, 2)
    case BackupDump(plan) => Copied(d, run, plan, 3)
    case BackupManifest(plan) => Copied(d, run, plan, 4)
    case Audit(plan) => Secured(d, plan)
    case Quiesce(plan) => Secured(d, plan)
    case Migrate(plan) => Secured(d, plan)
    case StateTemp(plan) => Secured(d, plan) && d.schema == HEAD
    case StateSwap(plan) => Secured(d, plan) && d.schema == HEAD
    case EnvTemp(plan) => Secured(d, plan) && d.state == plan.target
    case EnvSwap(plan) => Secured(d, plan) && d.state == plan.target
    case Up(plan) => Secured(d, plan) && d.state == plan.target && d.env == EnvOf(plan.target)
    case Accept(plan) => Secured(d, plan) && d.state == plan.target && d.env == EnvOf(plan.target) && d.running == Some(plan.target.images)
    case Archive(plan) => Secured(d, plan) && d.state == plan.target && d.env == EnvOf(plan.target) && d.running == Some(plan.target.images)
    case Finished => true
    case Failed => true
  }

  ghost predicate Safe(w: World) {
    DiskOk(w.disk) && (w.run.Some? ==> RunOk(w.disk, w.run.value))
  }

  predicate Planning(pc: Pc) {
    pc.Checking? || pc.Building? || pc.PlanTemp? || pc.PlanSwap? || pc.Images?
  }

  predicate Copying(pc: Pc) {
    pc.BackupOpen? || pc.BackupPrivate? || pc.BackupState? || pc.BackupEnv? || pc.BackupDump? || pc.BackupManifest?
  }

  lemma PlanningKeepsSafe(d: Disk, run: Run)
    requires DiskOk(d) && RunOk(d, run) && Planning(run.pc)
    ensures DiskOk(Next(d, run).0) && RunOk(Next(d, run).0, run.(pc := Next(d, run).1))
  {
  }

  lemma CopyingKeepsSafe(d: Disk, run: Run)
    requires DiskOk(d) && RunOk(d, run) && Copying(run.pc)
    ensures DiskOk(Next(d, run).0) && RunOk(Next(d, run).0, run.(pc := Next(d, run).1))
  {
  }

  lemma InstallingKeepsSafe(d: Disk, run: Run)
    requires DiskOk(d) && RunOk(d, run) && !Planning(run.pc) && !Copying(run.pc)
    ensures DiskOk(Next(d, run).0) && RunOk(Next(d, run).0, run.(pc := Next(d, run).1))
  {
  }

  lemma EffectKeepsSafe(d: Disk, run: Run)
    requires DiskOk(d) && RunOk(d, run)
    ensures DiskOk(Next(d, run).0) && RunOk(Next(d, run).0, run.(pc := Next(d, run).1))
  {
    hide DiskOk, RunOk, Next;
    if Planning(run.pc) {
      PlanningKeepsSafe(d, run);
    } else if Copying(run.pc) {
      CopyingKeepsSafe(d, run);
    } else {
      InstallingKeepsSafe(d, run);
    }
  }

  lemma StepKeepsSafe(w: World, act: Action)
    requires Safe(w) && Possible(w, act)
    ensures Safe(Apply(w, act))
  {
    if act.Step? {
      hide DiskOk, RunOk, Next;
      EffectKeepsSafe(w.disk, w.run.value);
    }
  }

  lemma {:induction false} AlwaysSafe(trace: seq<World>, acts: seq<Action>, i: nat)
    requires Follows(trace, acts) && i < |trace|
    ensures Safe(trace[i])
  {
    if i > 0 {
      hide Safe, Apply, Possible;
      AlwaysSafe(trace, acts, i - 1);
      StepKeepsSafe(trace[i - 1], acts[i - 1]);
    }
  }

  // ----- the theorems -----

  /** The schema only ever changes while the recorded plan names a finished backup of
      the configuration and the schema from before the plan. */
  lemma MigrationOnlyAfterBackup(trace: seq<World>, acts: seq<Action>, i: nat)
    requires Follows(trace, acts) && i < |acts| && trace[i + 1].disk.schema != trace[i].disk.schema
    ensures var d := trace[i].disk;
            && d.pending.Some? && d.pending.value.phase.BackedUp? && d.pending.value.backup.Some?
            && d.baseline <= d.schema && d.state == d.pending.value.previous
            && BackupOf(d, d.pending.value, d.pending.value.backup.value)
  {
    AlwaysSafe(trace, acts, i);
  }

  /** The order of the files and the schema: at every instant compose.env is from after
      the upgrade only if state.json is, and that only if the migration is done; until
      its turn each has its value from before. */
  lemma FilesAreWhole(trace: seq<World>, acts: seq<Action>, i: nat)
    requires Follows(trace, acts) && i < |trace|
    ensures var d := trace[i].disk;
            if d.pending.None? then d.env == EnvOf(d.state)
            else
              var previous, target := d.pending.value.previous, d.pending.value.target;
              && EnvOf(previous) != EnvOf(target)
              && (d.state == previous || d.state == target) && (d.env == EnvOf(previous) || d.env == EnvOf(target))
              && (d.env == EnvOf(target) ==> d.state == target)
              && (d.state == target ==> d.schema == HEAD)
  {
    AlwaysSafe(trace, acts, i);
  }

  /** The plan of a run replaces identity and images of the document and keeps the rest. */
  predicate Replaces(plan: Plan) {
    plan.target == Doc(Some(plan.identity), plan.target.images, plan.previous.other)
  }

  /** What was not to be replaced is as it was on the first disk. */
  ghost predicate RestKept(d0: Disk, d: Disk) {
    && d.state.other == d0.state.other && d.env.other == d0.state.other && d.privateFiles == d0.privateFiles
    && (d.pending.Some? ==>
          && Replaces(d.pending.value) && d.pending.value.previous.other == d0.state.other
          && d.pending.value.target.images in d.builtImages)
    && (forall plan :: plan in d.history ==> plan in d0.history || Replaces(plan))
    && (|| d.state == d0.state
        || (exists plan :: plan in d.history && d.state == plan.target)
        || (d.pending.Some? && d.state == d.pending.value.target))
  }

  lemma PlanningKeepsRest(d0: Disk, d: Disk, run: Run)
    requires DiskOk(d) && RunOk(d, run) && RestKept(d0, d) && Planning(run.pc)
    ensures RestKept(d0, Next(d, run).0)
  {
  }

  lemma CopyingKeepsRest(d0: Disk, d: Disk, run: Run)
    requires DiskOk(d) && RunOk(d, run) && RestKept(d0, d) && Copying(run.pc)
    ensures RestKept(d0, Next(d, run).0)
  {
  }

  lemma InstallingKeepsRest(d0: Disk, d: Disk, run: Run)
    requires DiskOk(d) && RunOk(d, run) && RestKept(d0, d) && !Planning(run.pc) && !Copying(run.pc)
    ensures RestKept(d0, Next(d, run).0)
  {
    var d' := Next(d, run).0;
    if run.pc.Archive? {
      assert run.pc.plan in d'.history && d'.state == run.pc.plan.target;
    } else {
      assert d'.history == d.history;
    }
  }

  /** Whatever crashes: an upgrade replaces the identity by that of its plan and the
      images by new ones, and keeps everything else in both files, as it keeps the
      private files; between upgrades state.json is the first one or a plan's target. */
  lemma {:induction false} OnlyIdentityAndImagesChange(trace: seq<World>, acts: seq<Action>, i: nat)
    requires Follows(trace, acts) && i < |trace|
    ensures RestKept(trace[0].disk, trace[i].disk)
  {
    if i > 0 {
      hide DiskOk, RunOk, Next, RestKept;
      OnlyIdentityAndImagesChange(trace, acts, i - 1);
      AlwaysSafe(trace, acts, i - 1);
      var d0, w := trace[0].disk, trace[i - 1];
      if acts[i - 1].Step? {
        if Planning(w.run.value.pc) {
          PlanningKeepsRest(d0, w.disk, w.run.value);
        } else if Copying(w.run.value.pc) {
          CopyingKeepsRest(d0, w.disk, w.run.value);
        } else {
          InstallingKeepsRest(d0, w.disk, w.run.value);
        }
      }
    }
  }

  /** How a process begins: it refuses a schema it does not know and the plan of another
      source, takes up its own plan, does nothing if its source is installed, and plans
      an upgrade otherwise. */
  lemma BeginsExactlyWhen(d: Disk, run: Run)
    requires run.pc.Checking?
    ensures var (d', pc) := Next(d, run);
            && d' == d
            && (pc.Failed? <==> d.schema < 5 || d.schema > 7 || (d.pending.Some? && d.pending.value.identity != run.identity))
            && (pc.Images? <==> 5 <= d.schema <= 7 && d.pending.Some? && d.pending.value.identity == run.identity)
            && (pc.Images? ==> pc.plan == d.pending.value)
            && (pc.Finished? <==> 5 <= d.schema <= 7 && d.pending.None? && d.state.identity == Some(run.identity))
            && (pc.Building? <==> 5 <= d.schema <= 7 && d.pending.None? && d.state.identity != Some(run.identity))
  {
  }

  /** Nothing is migrated before this check: the recorded backup is complete, manifest
      and all, and the private files are those it was made with. */
  lemma AuditedExactlyWhen(d: Disk, run: Run)
    requires run.pc.Audit?
    ensures var (d', pc) := Next(d, run);
            && d' == d && (pc.Failed? || pc == Quiesce(run.pc.plan))
            && (pc.Quiesce? <==>
                  && run.pc.plan.backup.Some? && run.pc.plan.privateFiles == Some(d.privateFiles)
                  && run.pc.plan.backup.value in d.backups
                  && var b := d.backups[run.pc.plan.backup.value];
                     b.manifest && b.privateFiles.Some? && b.state.Some? && b.env.Some? && b.dump.Some?)
  {
  }

  /** The migration goes to schema 7, one version at a time. */
  lemma MigratesExactlyTo(d: Disk, run: Run)
    requires run.pc.Migrate?
    ensures Next(d, run) == if d.schema < 7 then (d.(schema := d.schema + 1), run.pc) else (d, StateTemp(run.pc.plan))
  {
  }

  /** How far a run is from its end. */
  function Distance(d: Disk, pc: Pc): nat {
    match pc
    case Checking => 40
    case Building => 39
    case PlanTemp(plan) => if plan.phase.Built? then 38 else 29
    case PlanSwap(plan) => if plan.phase.Built? then 37 else 28
    case Images(_) => 36
    case BackupOpen(_) => 35
    case BackupPrivate(_) => 34
    case BackupState(_) => 33
    case BackupEnv(_) => 32
    case BackupDump(_) => 31
    case BackupManifest(_) => 30
    case Audit(_) => 27
    case Quiesce(_) => 26
    case Migrate(_) => 10 + (if d.schema < HEAD then HEAD - d.schema else 0)
    case StateTemp(_) => 9
    case StateSwap(_) => 8
    case EnvTemp(_) => 7
    case EnvSwap(_) => 6
    case Up(_) => 5
    case Accept(_) => 4
    case Archive(_) => 3
    case Finished => 0
    case Failed => 0
  }

  /** A run that is left alone, to its end. */
  function Finish(d: Disk, run: Run): (Disk, Pc)
    decreases Distance(d, run.pc)
  {
    if run.pc.Finished? || run.pc.Failed? then (d, run.pc)
    else
      var (d', pc) := Next(d, run);
      Finish(d', run.(pc := pc))
  }

  /** The upgrade as seen from outside. */
  datatype Visible = Visible(state: Doc, env: EnvFile, schema: nat, running: Option<Id>, pending: Option<Plan>, privateFiles: Id)

  function Seen(d: Disk): Visible {
    Visible(d.state, d.env, d.schema, d.running, d.pending, d.privateFiles)
  }

  function Upgraded(target: Doc, privateFiles: Id): Visible {
    Visible(target, EnvOf(target), HEAD, Some(target.images), None, privateFiles)
  }

  /** What this run is going to install. */
  function Goal(d: Disk, run: Run): Doc {
    if run.pc.Checking? || run.pc.Building? then
      if d.pending.Some? then d.pending.value.target else TargetOf(d.state, run.identity, run.suffix)
    else if run.pc.Finished? || run.pc.Failed? then d.state
    else run.pc.plan.target
  }

  lemma EffectKeepsGoal(d: Disk, run: Run)
    requires DiskOk(d) && RunOk(d, run) && !run.pc.Finished? && !run.pc.Failed? && !run.pc.Checking?
    ensures !Next(d, run).1.Failed? && Next(d, run).0.privateFiles == d.privateFiles
    ensures if Next(d, run).1.Finished? then Seen(Next(d, run).0) == Upgraded(Goal(d, run), d.privateFiles)
            else Goal(Next(d, run).0, run.(pc := Next(d, run).1)) == Goal(d, run)
    ensures Next(d, run).1.Checking? ==> false
  {
  }

  lemma {:induction false} UndisturbedRunUpgrades(d: Disk, run: Run)
    requires DiskOk(d) && RunOk(d, run) && !run.pc.Finished? && !run.pc.Failed? && !run.pc.Checking?
    ensures Finish(d, run).1.Finished? && Seen(Finish(d, run).0) == Upgraded(Goal(d, run), d.privateFiles)
    decreases Distance(d, run.pc)
  {
    hide DiskOk, RunOk, Goal;
    EffectKeepsSafe(d, run);
    EffectKeepsGoal(d, run);
    var (d', pc) := Next(d, run);
    if !pc.Finished? {
      UndisturbedRunUpgrades(d', run.(pc := pc));
    } else {
      assert Finish(d', run.(pc := pc)) == (d', pc);
    }
  }

  /** After any history of crashes, a re-run for the same source that is left alone
      ends upgraded; without a pending plan it does nothing if already upgraded. */
  lemma RerunCompletes(trace: seq<World>, acts: seq<Action>, i: nat, run: Run)
    requires Follows(trace, acts) && i < |trace| && run.pc.Checking?
    requires Possible(trace[i], Launch(run.identity, run.suffix, run.directory))
    requires trace[i].disk.pending.Some? ==> trace[i].disk.pending.value.identity == run.identity
    ensures var d := trace[i].disk;
            && Finish(d, run).1.Finished?
            && (if d.pending.None? && d.state.identity == Some(run.identity) then Finish(d, run).0 == d
                else Seen(Finish(d, run).0) == Upgraded(Goal(d, run), d.privateFiles))
  {
    AlwaysSafe(trace, acts, i);
    CheckedRunUpgrades(trace[i].disk, run);
  }

  lemma CheckedRunUpgrades(d: Disk, run: Run)
    requires DiskOk(d) && run.pc.Checking? && run.suffix != d.state.images && run.directory !in d.backups
    requires d.pending.Some? ==> d.pending.value.identity == run.identity
    ensures Finish(d, run).1.Finished?
    ensures if d.pending.None? && d.state.identity == Some(run.identity) then Finish(d, run).0 == d
            else Seen(Finish(d, run).0) == Upgraded(Goal(d, run), d.privateFiles)
  {
    var (d', pc) := Next(d, run);
    if pc.Finished? {
      assert Finish(d', run.(pc := pc)) == (d', pc);
    } else {
      UndisturbedRunUpgrades(d', run.(pc := pc));
    }
  }

  /** Crashing makes no difference: from every crash point of an upgrade the re-run
      ends in exactly what one undisturbed run would have made of the prepared demo. */
  lemma CrashMakesNoDifference(trace: seq<World>, acts: seq<Action>, i: nat, rerun: Run, first: Run)
    requires Follows(trace, acts) && i < |trace| && trace[i].disk.pending.Some?
    requires rerun.pc.Checking? && Possible(trace[i], Launch(rerun.identity, rerun.suffix, rerun.directory))
    requires var plan := trace[i].disk.pending.value;
             rerun.identity == first.identity == plan.identity && first.suffix == plan.target.images && first.pc.Checking?
    ensures var d := trace[i].disk;
            var clean := d.(state := d.pending.value.previous, env := EnvOf(d.pending.value.previous), schema := d.baseline, pending := None);
            first.directory !in clean.backups ==> Seen(Finish(d, rerun).0) == Seen(Finish(clean, first).0)
  {
    var d := trace[i].disk;
    var plan := d.pending.value;
    var clean := d.(state := plan.previous, env := EnvOf(plan.previous), schema := d.baseline, pending := None);
    AlwaysSafe(trace, acts, i);
    CheckedRunUpgrades(d, rerun);
    if first.directory !in clean.backups {
      CheckedRunUpgrades(clean, first);
    }
  }

  // ----- the program as it is written -----

  class Demo {
    var state: Doc
    var env: EnvFile
    const privateFiles: Id
    var pending: Option<Plan>
    var temporary: set<FileName>
    var backups: map<Id, Backup>
    var builtImages: set<Id>
    var schema: nat
    var running: Option<Id>
    var history: set<Plan>
    ghost var baseline: nat

    ghost function Model(): Disk
      reads this
    {
      Disk(state, env, privateFiles, pending, temporary, backups, builtImages, schema, running, history, baseline)
    }

    constructor (d: Disk)
      ensures Model() == d
    {
      state, env, privateFiles, pending, temporary := d.state, d.env, d.privateFiles, d.pending, d.temporary;
      backups, builtImages, schema, running, history := d.backups, d.builtImages, d.schema, d.running, d.history;
      baseline := d.baseline;
    }

    /** Temporary file first, then one atomic replace. */
    method SavePlan(plan: Plan)
      modifies this
      ensures Model() == old(Model()).(temporary := old(temporary) + {PlanFile} - {PlanFile}, pending := Some(plan),
                                       baseline := if plan.phase.Built? then old(schema) else old(baseline))
    {
      temporary := temporary + {PlanFile};
      temporary := temporary - {PlanFile};
      pending := Some(plan);
      if plan.phase.Built? {
        baseline := schema;
      }
    }

    /** Copies the files, dumps the database and writes the manifest last. */
    method MakeBackup(directory: Id)
      requires directory !in backups
      modifies this
      ensures Model() == old(Model()).(running := None,
                backups := old(backups)[directory := Backup(Some(privateFiles), Some(old(state)), Some(old(env)), Some(old(schema)), true)])
    {
      backups := backups[directory := Backup(None, None, None, None, false)];
      running := None;
      backups := backups[directory := backups[directory].(privateFiles := Some(privateFiles))];
      backups := backups[directory := backups[directory].(state := Some(state))];
      backups := backups[directory := backups[directory].(env := Some(env))];
      backups := backups[directory := backups[directory].(dump := Some(schema))];
      backups := backups[directory := backups[directory].(manifest := true)];
    }

    method Install(plan: Plan)
      modifies this
      ensures var d := old(Model());
              Model() == d.(running := Some(plan.target.images), schema := if d.schema < HEAD then HEAD else d.schema,
                            state := plan.target, env := EnvOf(plan.target),
                            temporary := d.temporary - {StateFile} - {EnvironmentFile})
    {
      running := None;
      while schema < HEAD
        invariant Model() == old(Model()).(running := None, schema := schema)
        invariant old(schema) <= schema && (schema <= HEAD || schema == old(schema))
      {
        schema := schema + 1;
      }
      temporary := temporary + {StateFile};
      temporary := temporary - {StateFile};
      state := plan.target;
      temporary := temporary + {EnvironmentFile};
      temporary := temporary - {EnvironmentFile};
      env := EnvOf(plan.target);
      running := Some(plan.target.images);
      assert temporary == old(temporary) - {StateFile} - {EnvironmentFile};
    }

    /** The pending plan, or a new one; None if there is nothing to do or no way to do it. */
    method LoadPlan(identity: Id, suffix: Id, ghost directory: Id) returns (plan: Option<Plan>, ok: bool)
      modifies this
      ensures var start := Run(identity, suffix, directory, Checking);
              if plan.Some? then Finish(old(Model()), start) == Finish(Model(), start.(pc := Images(plan.value)))
              else Finish(old(Model()), start) == (Model(), if ok then Finished else Failed)
    {
      hide Finish, Distance;
      ghost var start := Run(identity, suffix, directory, Checking);
      Onward(Model(), start);
      if schema < OLDEST || schema > HEAD {
        return None, false;
      }
      if pending.Some? {
        if pending.value.identity != identity {
          return None, false;
        }
        return pending, true;
      }
      if state.identity == Some(identity) {
        return None, true;
      }
      var p := Plan(identity, TargetOf(state, identity, suffix), state, Built, None, None);
      builtImages := builtImages + {suffix};
      SavePlan(p);
      Planned(old(Model()), start, p);
      return Some(p), true;
    }

    /** From a plan to a recorded backup. */
    method Secure(plan: Plan, directory: Id, ghost start: Run) returns (secured: Option<Plan>)
      requires directory == start.directory
      modifies this
      ensures var images := start.(pc := Images(plan));
              if secured.Some? then Finish(old(Model()), images) == Finish(Model(), start.(pc := Audit(secured.value)))
              else Finish(old(Model()), images) == (Model(), Failed)
    {
      hide Finish, Distance;
      Onward(Model(), start.(pc := Images(plan)));
      if plan.target.images !in builtImages {
        return None;
      }
      if plan.phase.BackedUp? {
        return Some(plan);
      }
      secured := BackUp(plan, directory, start);
    }

    method BackUp(plan: Plan, directory: Id, ghost start: Run) returns (secured: Option<Plan>)
      requires plan.phase.Built? && plan.target.images in builtImages && directory == start.directory
      modifies this
      ensures var images := start.(pc := Images(plan));
              if secured.Some? then Finish(old(Model()), images) == Finish(Model(), start.(pc := Audit(secured.value)))
              else Finish(old(Model()), images) == (Model(), Failed)
    {
      hide Finish, Distance;
      if directory in backups {
        Onward(Model(), start.(pc := Images(plan)));
        Onward(Model(), start.(pc := BackupOpen(plan)));
        return None;
      }
      hide Next;
      MakeBackup(directory);
      var p := plan.(phase := BackedUp, backup := Some(directory), privateFiles := Some(privateFiles));
      SavePlan(p);
      Backed(old(Model()), start, plan);
      return Some(p);
    }

    /** The whole upgrade in one process does what the single effects add up to. */
    method ApplyUpgrade(identity: Id, suffix: Id, directory: Id) returns (ok: bool)
      modifies this
      ensures (Model(), if ok then Finished else Failed) == Finish(old(Model()), Run(identity, suffix, directory, Checking))
    {
      hide Finish, Distance;
      ghost var start := Run(identity, suffix, directory, Checking);
      var loaded, nothingToDo := LoadPlan(identity, suffix, directory);
      if loaded.None? {
        return nothingToDo;
      }
      var secured := Secure(loaded.value, directory, start);
      if secured.None? {
        return false;
      }
      var plan := secured.value;
      ghost var before := Model();
      Onward(before, start.(pc := Audit(plan)));
      if plan.backup.None? || plan.backup.value !in backups || !Complete(backups[plan.backup.value])
         || plan.privateFiles != Some(privateFiles)
      {
        return false;
      }
      hide Next;
      Install(plan);
      pending := None;
      history := history + {plan};
      Installed(before, start, plan);
      return true;
    }
  }

  lemma Onward(d: Disk, run: Run)
    requires !run.pc.Finished? && !run.pc.Failed?
    ensures Finish(d, run) == Finish(Next(d, run).0, run.(pc := Next(d, run).1))
    ensures Next(d, run).1.Finished? || Next(d, run).1.Failed? ==> Finish(d, run) == Next(d, run)
  {
  }

  lemma Planned(d: Disk, run: Run, plan: Plan)
    requires run.pc.Checking? && OLDEST <= d.schema <= HEAD && d.pending.None? && d.state.identity != Some(run.identity)
    requires plan == Plan(run.identity, TargetOf(d.state, run.identity, run.suffix), d.state, Built, None, None)
    ensures var d' := d.(builtImages := d.builtImages + {run.suffix}, temporary := d.temporary + {PlanFile} - {PlanFile},
                         pending := Some(plan), baseline := d.schema);
            Finish(d, run) == Finish(d', run.(pc := Images(plan)))
  {
    hide Finish;
    Onward(d, run);
    Onward(d, run.(pc := Building));
    var d1 := Next(d, run.(pc := Building)).0;
    Onward(d1, run.(pc := PlanTemp(plan)));
    var d2 := Next(d1, run.(pc := PlanTemp(plan))).0;
    Onward(d2, run.(pc := PlanSwap(plan)));
  }

  lemma Backed(d: Disk, run: Run, plan: Plan)
    requires run.directory !in d.backups && plan.phase.Built? && plan.target.images in d.builtImages
    ensures var b := Backup(Some(d.privateFiles), Some(d.state), Some(d.env), Some(d.schema), true);
            var plan' := plan.(phase := BackedUp, backup := Some(run.directory), privateFiles := Some(d.privateFiles));
            var d' := d.(running := None, backups := d.backups[run.directory := b],
                         temporary := d.temporary + {PlanFile} - {PlanFile}, pending := Some(plan'));
            Finish(d, run.(pc := Images(plan))) == Finish(d', run.(pc := Audit(plan')))
  {
    hide Finish, BackupAt;
    Onward(d, run.(pc := Images(plan)));
    Onward(d, run.(pc := BackupOpen(plan)));
    var d1 := Next(d, run.(pc := BackupOpen(plan))).0;
    var d5 := CopiedFiles(d1, run, plan);
    assert d5.backups == d.backups[run.directory := Backup(Some(d.privateFiles), Some(d.state), Some(d.env), Some(d.schema), false)];
    BackupRecorded(d5, run, plan);
    assert d5.backups[run.directory := Backup(Some(d.privateFiles), Some(d.state), Some(d.env), Some(d.schema), true)]
        == d.backups[run.directory := Backup(Some(d.privateFiles), Some(d.state), Some(d.env), Some(d.schema), true)];
  }

  lemma BackupRecorded(d: Disk, run: Run, plan: Plan)
    requires run.directory in d.backups
    ensures var plan' := plan.(phase := BackedUp, backup := Some(run.directory), privateFiles := Some(d.privateFiles));
            var d' := d.(backups := d.backups[run.directory := d.backups[run.directory].(manifest := true)],
                         temporary := d.temporary + {PlanFile} - {PlanFile}, pending := Some(plan'));
            Finish(d, run.(pc := BackupManifest(plan))) == Finish(d', run.(pc := Audit(plan')))
  {
    hide Finish;
    Onward(d, run.(pc := BackupManifest(plan)));
    var (d6, pc6) := Next(d, run.(pc := BackupManifest(plan)));
    Onward(d6, run.(pc := pc6));
    var (d7, pc7) := Next(d6, run.(pc := pc6));
    Onward(d7, run.(pc := pc7));
  }

  lemma CopiedFiles(d: Disk, run: Run, plan: Plan) returns (d': Disk)
    requires run.directory in d.backups && d.backups[run.directory] == Backup(None, None, None, None, false)
    ensures d' == d.(backups := d.backups[run.directory := Backup(Some(d.privateFiles), Some(d.state), Some(d.env), Some(d.schema), false)])
    ensures Finish(d, run.(pc := BackupPrivate(plan))) == Finish(d', run.(pc := BackupManifest(plan)))
  {
    var d2 := CopiedTwo(d, run, plan);
    hide Finish;
    Onward(d2, run.(pc := BackupEnv(plan)));
    var d4 := Next(d2, run.(pc := BackupEnv(plan))).0;
    Onward(d4, run.(pc := BackupDump(plan)));
    d' := Next(d4, run.(pc := BackupDump(plan))).0;
    assert d'.backups == d.backups[run.directory := Backup(Some(d.privateFiles), Some(d.state), Some(d.env), Some(d.schema), false)];
  }

  lemma CopiedTwo(d: Disk, run: Run, plan: Plan) returns (d': Disk)
    requires run.directory in d.backups && d.backups[run.directory] == Backup(None, None, None, None, false)
    ensures d' == d.(backups := d.backups[run.directory := Backup(Some(d.privateFiles), Some(d.state), None, None, false)])
    ensures Finish(d, run.(pc := BackupPrivate(plan))) == Finish(d', run.(pc := BackupEnv(plan)))
  {
    hide Finish;
    Onward(d, run.(pc := BackupPrivate(plan)));
    var d2 := Next(d, run.(pc := BackupPrivate(plan))).0;
    Onward(d2, run.(pc := BackupState(plan)));
    d' := Next(d2, run.(pc := BackupState(plan))).0;
    assert d'.backups == d.backups[run.directory := Backup(Some(d.privateFiles), Some(d.state), None, None, false)];
  }

  lemma {:induction false} Migrated(d: Disk, run: Run, plan: Plan)
    requires run.pc == Migrate(plan)
    ensures Finish(d, run) == Finish(d.(schema := if d.schema < HEAD then HEAD else d.schema), run.(pc := StateTemp(plan)))
    decreases Distance(d, run.pc)
  {
    if d.schema < HEAD {
      Migrated(d.(schema := d.schema + 1), run, plan);
    } else {
      assert d.(schema := d.schema) == d;
    }
  }

  lemma Installed(d: Disk, run: Run, plan: Plan)
    requires plan.backup.Some? && Complete(BackupAt(d, plan.backup.value)) && plan.privateFiles == Some(d.privateFiles)
    ensures var d' := d.(running := Some(plan.target.images), schema := if d.schema < HEAD then HEAD else d.schema,
                         state := plan.target, env := EnvOf(plan.target), temporary := d.temporary - {StateFile} - {EnvironmentFile},
                         pending := None, history := d.history + {plan});
            Finish(d, run.(pc := Audit(plan))) == (d', Finished)
  {
    hide Finish, Complete, BackupAt;
    Onward(d, run.(pc := Audit(plan)));
    Onward(d, run.(pc := Quiesce(plan)));
    var d1 := d.(running := None);
    Migrated(d1, run.(pc := Migrate(plan)), plan);
    var d2 := d1.(schema := if d.schema < HEAD then HEAD else d.schema);
    Configured(d2, run, plan);
  }

  lemma Configured(d: Disk, run: Run, plan: Plan)
    ensures var d' := d.(running := Some(plan.target.images), state := plan.target, env := EnvOf(plan.target),
                         temporary := d.temporary - {StateFile} - {EnvironmentFile}, pending := None, history := d.history + {plan});
            Finish(d, run.(pc := StateTemp(plan))) == (d', Finished)
  {
    hide Finish, Next;
    var d1 := d.(temporary := d.temporary - {StateFile}, state := plan.target);
    StateReplaced(d, run, plan);
    var d2 := d1.(temporary := d1.temporary - {EnvironmentFile}, env := EnvOf(plan.target));
    EnvReplaced(d1, run, plan);
    WentUp(d2, run, plan);
  }

  lemma StateReplaced(d: Disk, run: Run, plan: Plan)
    ensures Finish(d, run.(pc := StateTemp(plan)))
         == Finish(d.(temporary := d.temporary - {StateFile}, state := plan.target), run.(pc := EnvTemp(plan)))
  {
    hide Finish;
    Onward(d, run.(pc := StateTemp(plan)));
    var d1 := Next(d, run.(pc := StateTemp(plan))).0;
    Onward(d1, run.(pc := StateSwap(plan)));
    assert d1.temporary - {StateFile} == d.temporary - {StateFile};
  }

  lemma EnvReplaced(d: Disk, run: Run, plan: Plan)
    ensures Finish(d, run.(pc := EnvTemp(plan)))
         == Finish(d.(temporary := d.temporary - {EnvironmentFile}, env := EnvOf(plan.target)), run.(pc := Up(plan)))
  {
    hide Finish;
    Onward(d, run.(pc := EnvTemp(plan)));
    var d1 := Next(d, run.(pc := EnvTemp(plan))).0;
    Onward(d1, run.(pc := EnvSwap(plan)));
    assert d1.temporary - {EnvironmentFile} == d.temporary - {EnvironmentFile};
  }

  lemma WentUp(d: Disk, run: Run, plan: Plan)
    ensures Finish(d, run.(pc := Up(plan)))
         == (d.(running := Some(plan.target.images), pending := None, history := d.history + {plan}), Finished)
  {
    hide Finish;
    Onward(d, run.(pc := Up(plan)));
    var d1 := Next(d, run.(pc := Up(plan))).0;
    Onward(d1, run.(pc := Accept(plan)));
    Onward(d1, run.(pc := Archive(plan)));
  }
}
