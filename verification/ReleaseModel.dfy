/**
 What a release of the runtime stack deals with: the stack and its change sets, the product
 registrations, the background controller that launches tasks from what it last loaded, the tasks, and
 the release journal.  `Env` is everything that can happen on its own between two calls of the release.
 */
module ReleaseModel {
  import opened Wrappers

  datatype Product = Metadata | Ingest
  datatype Key = MetadataEnabled | IngestEnabled | Other(id: nat)
  type Params = map<Key, string>

  const PRODUCTS: set<Product> := {Metadata, Ingest}

  function FlagOf(p: Product): Key {
    match p
    case Metadata => MetadataEnabled
    case Ingest => IngestEnabled
  }

  predicate IsFlag(k: Key) {
    k.MetadataEnabled? || k.IngestEnabled?
  }

  /** The flags of `m`, all switched off. */
  function PauseValues(m: Params): Params {
    map k | k in m && IsFlag(k) :: "false"
  }

  /** The flags of `m` as they are. */
  function FlagValues(m: Params): Params {
    map k | k in m && IsFlag(k) :: m[k]
  }

  function Paused(m: Params): Params {
    m + PauseValues(m)
  }

  datatype Stage = Pausing | Candidate | Revising | Resuming
  datatype SetState = Available | Empty | Executed | Broken
  datatype ChangeSet = ChangeSet(params: Params, template: nat, state: SetState)
  datatype StackStatus = Settled | Progressing(stage: Stage) | RolledBack

  datatype Reg = Reg(version: nat, enabled: string)
  datatype Task = Task(product: Option<Product>, wanted: bool, alive: bool)
  type TaskId = nat

  /** Flags as recorded by this controller; one bare value as recorded by its first version. */
  datatype Restore = Flags(values: Params) | Legacy(value: string)
  datatype Context = Context(change: nat, previous: Params, parameters: Params, template: nat, restore: Restore)
  datatype Note = Start | Drained | Runtime | Revisions | Complete
  datatype Journal = Journal(start: Option<Context>, notes: set<Note>)

  datatype Cloud = Cloud(
    now: int, params: Params, template: nat, status: StackStatus, sets: map<Stage, ChangeSet>,
    regs: map<Product, Reg>, loaded: map<Product, Reg>, observedAt: int, refreshedAt: int,
    tasks: map<TaskId, Task>, journal: Journal)

  // ---------- what happens on its own ----------

  datatype Event =
    | Nothing
    | Tick(seconds: nat)
    | Completes                               // the stack update in progress succeeds
    | RollsBack                               // or fails and is undone
    | Forgets(stage: Stage)                   // a change set is no longer kept
    | Refreshes                               // the controller loads the registrations and reports them
    | Launches(product: Product, id: TaskId)  // the controller starts a task of an enabled product
    | Others(id: TaskId)                      // somebody else's task starts
    | AskedToStop(id: TaskId)
    | Stops(id: TaskId)
    | Expires(id: TaskId)                     // a stopped task is no longer listed

  /** The registrations are resources of the stack, one for each flag it has. */
  function Registered(regs: map<Product, Reg>, params: Params): map<Product, Reg> {
    map p | p in PRODUCTS && FlagOf(p) in params ::
      if p in regs && regs[p].enabled == params[FlagOf(p)] then regs[p]
      else Reg(if p in regs then regs[p].version + 1 else 1, params[FlagOf(p)])
  }

  function Env(c: Cloud, e: Event): Cloud {
    match e
    case Nothing => c
    case Tick(seconds) => c.(now := c.now + seconds)
    case Completes =>
      if c.status.Progressing? && c.status.stage in c.sets then
        var chosen := c.sets[c.status.stage];
        c.(params := chosen.params, template := chosen.template, status := Settled,
           sets := map[c.status.stage := chosen.(state := Executed)],
           regs := Registered(c.regs, chosen.params))
      else c
    case RollsBack =>
      if c.status.Progressing? && c.status.stage in c.sets then
        c.(status := RolledBack, sets := c.sets[c.status.stage := c.sets[c.status.stage].(state := Broken)])
      else c
    case Forgets(stage) => if c.status == Progressing(stage) then c else c.(sets := c.sets - {stage})
    case Refreshes => c.(loaded := c.regs, observedAt := c.now, refreshedAt := c.now)
    case Launches(product, id) =>
      if product in c.loaded && c.loaded[product].enabled == "true" && id !in c.tasks
      then c.(tasks := c.tasks[id := Task(Some(product), true, true)]) else c
    case Others(id) => if id !in c.tasks then c.(tasks := c.tasks[id := Task(None, true, true)]) else c
    case AskedToStop(id) => if id in c.tasks then c.(tasks := c.tasks[id := c.tasks[id].(wanted := false)]) else c
    case Stops(id) =>
      if id in c.tasks then c.(tasks := c.tasks[id := c.tasks[id].(wanted := false, alive := false)]) else c
    case Expires(id) => if id in c.tasks && !c.tasks[id].alive then c.(tasks := c.tasks - {id}) else c
  }

  // ---------- the course of a release ----------

  function Enabled(x: Context): Params {
    match x.restore
    case Flags(values) => values
    case Legacy(value) => map[MetadataEnabled := value]
  }

  /** The configurations a release leads the stack through: previous, paused, candidate paused, restored. */
  function At(x: Context, phase: nat): Params {
    if phase == 0 then x.previous
    else if phase == 1 then Paused(x.previous)
    else if phase == 2 then Paused(x.parameters)
    else Paused(x.parameters) + Enabled(x)
  }

  function LeadsTo(stage: Stage): nat {
    match stage
    case Pausing => 1
    case Candidate => 2
    case Revising => 2
    case Resuming => 3
  }

  /** No product is enabled anywhere, the controller knows, and no product task is alive. */
  ghost predicate Quiet(c: Cloud) {
    && (forall p :: p in c.regs ==> c.regs[p].enabled != "true")
    && (forall p :: p in c.loaded ==> c.loaded[p].enabled != "true")
    && (forall t :: t in c.tasks && c.tasks[t].product.Some? ==> !c.tasks[t].alive)
  }

  /** The registrations are those of the stack, and the controller holds no enabled one of another stack. */
  ghost predicate Wired(c: Cloud) {
    && (forall p :: p in c.regs <==> FlagOf(p) in c.params)
    && (forall p :: p in c.regs ==> c.regs[p].enabled == c.params[FlagOf(p)])
    && (forall p :: p in c.loaded ==> p in c.regs || c.loaded[p].enabled != "true")
  }

  /** A change set of this release holds exactly the configuration its stage leads to. */
  ghost predicate Planned(c: Cloud, x: Context, phase: nat) {
    forall s :: s in c.sets ==>
      && c.sets[s].params == At(x, LeadsTo(s))
      && (LeadsTo(s) >= 2 ==> c.sets[s].template == x.template)
      && (c.sets[s].state.Executed? || c.sets[s].state.Empty? ==> LeadsTo(s) <= phase)
      && (c.sets[s].state.Available? ==>
            && LeadsTo(s) > phase && (s.Candidate? || c.sets[s].template == c.template)
            && (c.sets[s].params != c.params || c.sets[s].template != c.template))
  }

  predicate Moving(c: Cloud, stage: Stage) {
    c.status == Progressing(stage)
  }

  /** Journal, stack and change sets agree on how far the release has come. */
  ghost predicate OnCourse(c: Cloud, x: Context, phase: nat) {
    var notes := c.journal.notes;
    && phase <= 3 && c.params == At(x, phase)
    && (phase >= 2 ==> c.template == x.template)
    && Planned(c, x, phase)
    && (c.status.Progressing? ==> c.status.stage in c.sets && c.sets[c.status.stage].state.Available?
                                  && c.status.stage != Revising && LeadsTo(c.status.stage) == phase + 1)
    && (x.restore.Flags? ==> x.restore.values == FlagValues(x.parameters))
    && (Start in notes)
    && (phase >= 2 || Moving(c, Candidate) ==> Drained in notes)
    && (Drained in notes ==> phase >= 1)
    && (Drained in notes && phase <= 2 ==> Quiet(c))
    && (Runtime in notes ==> phase >= 2)
    && (Revisions in notes ==> Runtime in notes)
    && (phase == 3 || Moving(c, Resuming) ==> Revisions in notes && Enabled(x).Keys <= Paused(x.parameters).Keys)
    && (Complete in notes ==> phase == 3)
  }

  /** Everything a release relies on, before it starts and at every later moment. */
  ghost predicate Valid(c: Cloud, phase: nat) {
    && Wired(c)
    && (c.journal.start.None? ==> c.journal.notes == {} && phase == 0 && c.sets == map[] && !c.status.Progressing?)
    && (c.journal.start.Some? ==> OnCourse(c, c.journal.start.value, phase))
  }

  function PhaseAfter(c: Cloud, phase: nat, e: Event): nat {
    if e.Completes? && c.status.Progressing? && c.status.stage in c.sets then LeadsTo(c.status.stage) else phase
  }

  /** Checkpoints are written once. */
  ghost predicate JournalGrows(j: Journal, j': Journal) {
    (j.start.Some? ==> j'.start == j.start) && j.notes <= j'.notes
  }

  /** No product is enabled and the controller knows it, so no product task can be launched. */
  ghost predicate Disarmed(c: Cloud) {
    && (forall p :: p in c.regs ==> c.regs[p].enabled != "true")
    && (forall p :: p in c.loaded ==> c.loaded[p].enabled != "true")
  }

  /** An update in progress either goes on, or brings the release one step further, or is undone. */
  predicate Moved(c: Cloud, phase: nat, c': Cloud, phase': nat) {
    || (c'.status == c.status && phase' == phase)
    || (c'.status.Settled? && phase' == phase + 1)
    || (c'.status.RolledBack? && phase' == phase)
  }

  lemma EnvMoves(c: Cloud, phase: nat, e: Event)
    requires Valid(c, phase) && c.status.Progressing?
    ensures Moved(c, phase, Env(c, e), PhaseAfter(c, phase, e))
  {
    hide Quiet, Wired, Planned, At;
  }

  lemma EnvDisarmed(c: Cloud, e: Event)
    requires Disarmed(c) && !c.status.Progressing?
    ensures Disarmed(Env(c, e))
    ensures forall t :: t in Env(c, e).tasks && Env(c, e).tasks[t].product.Some? && Env(c, e).tasks[t].alive ==>
              t in c.tasks && c.tasks[t].product.Some? && c.tasks[t].alive
              && (Env(c, e).tasks[t].wanted ==> c.tasks[t].wanted)
  {
  }

  lemma EnvJournal(c: Cloud, e: Event)
    ensures Env(c, e).journal == c.journal
  {
  }

  /** The stack stands still: nothing but the loss of change sets can happen to it on its own. */
  ghost predicate Still(c: Cloud, c': Cloud) {
    && c'.params == c.params && c'.template == c.template && c'.status == c.status && c'.regs == c.regs
    && c'.journal == c.journal && c'.now >= c.now
    && forall s :: s in c'.sets ==> s in c.sets && c'.sets[s] == c.sets[s]
  }

  lemma EnvStill(c: Cloud, e: Event)
    requires !c.status.Progressing?
    ensures Still(c, Env(c, e))
  {
  }

  lemma EnvQuiet(c: Cloud, e: Event)
    requires Quiet(c)
    requires c.status.Progressing? && c.status.stage in c.sets ==>
               forall p :: FlagOf(p) in c.sets[c.status.stage].params ==>
                 c.sets[c.status.stage].params[FlagOf(p)] != "true"
    ensures Quiet(Env(c, e))
  {
  }

  lemma EnvWired(c: Cloud, e: Event)
    requires Wired(c)
    requires c.status.Progressing? && c.status.stage in c.sets ==>
               forall p :: p in c.loaded && c.loaded[p].enabled == "true" ==>
                 FlagOf(p) in c.sets[c.status.stage].params
    ensures Wired(Env(c, e))
  {
    assert forall p: Product :: p.Metadata? || p.Ingest?;
  }

  lemma PausedFlags(m: Params)
    ensures Paused(m).Keys == m.Keys
    ensures forall k :: k in m ==> Paused(m)[k] == if IsFlag(k) then "false" else m[k]
  {
  }

  /** Once paused, every configuration up to the candidate has its flags off. */
  lemma FlagsOff(x: Context, phase: nat, p: Product)
    requires 1 <= phase <= 2
    ensures FlagOf(p) in At(x, phase) ==> At(x, phase)[FlagOf(p)] == "false"
  {
    PausedFlags(x.previous);
    PausedFlags(x.parameters);
  }

  lemma TargetFlags(c: Cloud, x: Context, phase: nat, p: Product)
    requires Wired(c) && OnCourse(c, x, phase) && c.status.Progressing?
    requires p in c.loaded && c.loaded[p].enabled == "true"
    ensures FlagOf(p) in c.sets[c.status.stage].params
  {
    PausedFlags(x.previous);
    PausedFlags(x.parameters);
  }

  lemma CompletesOnCourse(c: Cloud, x: Context, phase: nat)
    requires OnCourse(c, x, phase) && c.status.Progressing?
    requires Quiet(c) && LeadsTo(c.status.stage) <= 2 ==> Quiet(Env(c, Completes))
    ensures OnCourse(Env(c, Completes), x, LeadsTo(c.status.stage))
  {
    hide Quiet, Paused, Enabled, Registered;
  }

  lemma EnvOnCourse(c: Cloud, x: Context, phase: nat, e: Event)
    requires OnCourse(c, x, phase)
    requires Quiet(c) && PhaseAfter(c, phase, e) <= 2 ==> Quiet(Env(c, e))
    ensures OnCourse(Env(c, e), x, PhaseAfter(c, phase, e))
  {
    hide Quiet, At, Registered;
    if e.Completes? && c.status.Progressing? {
      CompletesOnCourse(c, x, phase);
    }
  }

  /** Nothing that happens on its own takes a release off its course or back. */
  lemma EnvKeeps(c: Cloud, phase: nat, e: Event)
    requires Valid(c, phase)
    ensures Valid(Env(c, e), PhaseAfter(c, phase, e)) && phase <= PhaseAfter(c, phase, e)
  {
    hide OnCourse, Quiet, Wired;
    if c.journal.start.Some? {
      var x := c.journal.start.value;
      TargetFacts(c, x, phase);
      EnvWired(c, e);
      if Quiet(c) && PhaseAfter(c, phase, e) <= 2 {
        QuietTarget(c, x, phase, e);
      }
      EnvOnCourse(c, x, phase, e);
    } else {
      EnvWired(c, e);
    }
  }

  lemma TargetFacts(c: Cloud, x: Context, phase: nat)
    requires Wired(c) && OnCourse(c, x, phase)
    ensures c.status.Progressing? ==> c.status.stage in c.sets && LeadsTo(c.status.stage) == phase + 1
    ensures c.status.Progressing? ==>
              forall p :: p in c.loaded && c.loaded[p].enabled == "true" ==> FlagOf(p) in c.sets[c.status.stage].params
  {
    if c.status.Progressing? {
      forall p | p in c.loaded && c.loaded[p].enabled == "true"
        ensures FlagOf(p) in c.sets[c.status.stage].params
      {
        TargetFlags(c, x, phase, p);
      }
    }
  }

  lemma QuietTarget(c: Cloud, x: Context, phase: nat, e: Event)
    requires OnCourse(c, x, phase) && Quiet(c) && PhaseAfter(c, phase, e) <= 2
    ensures Quiet(Env(c, e))
  {
    if e.Completes? && c.status.Progressing? {
      forall p | FlagOf(p) in c.sets[c.status.stage].params
        ensures c.sets[c.status.stage].params[FlagOf(p)] != "true"
      {
        FlagsOff(x, LeadsTo(c.status.stage), p);
      }
      EnvQuiet(c, e);
    } else {
      EnvQuiet(c.(status := Settled), e);
    }
  }

  /** Restored exactly: the reviewed parameters, when the flags were recorded as a map. */
  lemma RestoredExactly(x: Context)
    requires x.restore == Flags(FlagValues(x.parameters))
    ensures At(x, 3) == x.parameters
  {
    PausedFlags(x.parameters);
  }

  /**
   A journal of the controller's first version restores one flag only: the outcome is the reviewed one
   exactly when the recorded value is the reviewed value and the other product was to stay off.
   */
  lemma LegacyRestoresExactly(x: Context)
    requires x.restore.Legacy?
    ensures At(x, 3) == x.parameters
            <==> && MetadataEnabled in x.parameters && x.parameters[MetadataEnabled] == x.restore.value
                 && (IngestEnabled in x.parameters ==> x.parameters[IngestEnabled] == "false")
  {
    PausedFlags(x.parameters);
    assert MetadataEnabled in At(x, 3) && At(x, 3)[MetadataEnabled] == x.restore.value;
    assert IngestEnabled in x.parameters ==> At(x, 3)[IngestEnabled] == "false";
    assert forall k :: k in x.parameters && !IsFlag(k) ==> At(x, 3)[k] == x.parameters[k];
  }
}
