/**
 The pool (internal/runner/pool.go) and the PubSub trampolines it fights over
 (internal/runner/pubsub.go): panic restarts race Reload, ReloadAccount and
 Stop. A step is one locked section or one atomic operation of one actor.
 */
module Pool {
  import opened Platform

  /** Checking: restart holds buildMu, before its look at the context; Building: after it and the release. */
  datatype Phase = Running | Waiting | Checking | Building | Done

  /** A unit of the pool; `runner` is None for an Idle one. */
  datatype Slot = Slot(acct: string, runner: Option<nat>, cancelled: bool, phase: Phase)

  datatype Holder = Free | ByOp | ByUnit(unit: nat)

  datatype Scope = All | One(acct: string)

  datatype Stage = Make | Await | Install

  /**
   The operation that holds reloadMu. A reload builds the accounts `todo` into `made`, cancels the
   units `leaving` in its scope, waits for them, releases those in `left` and spawns what it made.
   A stop cancels `ahead` and waits for `stopping`.
   */
  datatype Op =
    | NoOp
    | Reload(stage: Stage, scope: Scope, todo: seq<string>, made: map<string, Option<nat>>,
             leaving: set<nat>, left: set<nat>, spawned: set<nat>)
    | Halt(stopping: set<nat>, ahead: set<nat>)

  /**
   `slots` has every unit ever spawned, `roster` those the pool lists, `owner` the runner each account's
   trampoline forwards to, `runners` counts the runners built, `base` says that a base context is set.
   `stranded` has the runners that Stop ended: it does not release them.
   */
  datatype Pool = Pool(
    slots: seq<Slot>, roster: set<nat>, owner: map<string, nat>, runners: nat,
    lock: Holder, op: Op, base: bool, stranded: set<nat>)

  datatype Built = NewRunner | NewIdle | Panicked

  datatype Event =
    | Return(u: nat) | Panic(u: nat) | GiveUp(u: nat)
    | TakeLock(u: nat) | Check(u: nat) | Rebuild(u: nat, built: Built)
    | BeginReload(scope: Scope, accts: seq<string>) | MakeNext(runs: bool) | CancelOld | AwaitDone
    | UnhookNext(u: nat) | LaunchNext(acct: string) | FinishReload
    | BeginStop | CancelNext(u: nat) | FinishStop

  const EMPTY: Pool := Pool([], {}, map[], 0, Free, NoOp, false, {})

  predicate InScope(scope: Scope, acct: string) { scope.All? || scope.acct == acct }

  predicate AllDone(s: Pool, units: set<nat>) {
    forall u :: u in units ==> u < |s.slots| && s.slots[u].phase.Done?
  }

  predicate In(s: Pool, u: nat, phase: Phase) { u < |s.slots| && s.slots[u].phase == phase }

  predicate Enabled(s: Pool, e: Event) {
    match e
    case Return(u) => In(s, u, Running)
    case Panic(u) => In(s, u, Running)
    case GiveUp(u) => In(s, u, Waiting) && s.slots[u].cancelled
    case TakeLock(u) => In(s, u, Waiting) && s.lock.Free?
    case Check(u) => In(s, u, Checking)
    case Rebuild(u, built) => In(s, u, Building)
    case BeginReload(scope, accts) =>
      && s.op.NoOp? && s.lock.Free? && (scope.One? ==> s.base && |accts| <= 1)
      && (forall i :: 0 <= i < |accts| ==> InScope(scope, accts[i]))
      && (forall i, j :: 0 <= i < j < |accts| ==> accts[i] != accts[j])
    case MakeNext(runs) => s.op.Reload? && s.op.stage.Make? && s.op.todo != []
    case CancelOld => s.op.Reload? && s.op.stage.Make? && s.op.todo == []
    case AwaitDone => s.op.Reload? && s.op.stage.Await? && AllDone(s, s.op.leaving)
    case UnhookNext(u) => s.op.Reload? && s.op.stage.Install? && u in s.op.left && u < |s.slots|
    case LaunchNext(acct) => s.op.Reload? && s.op.stage.Install? && s.op.left == {} && acct in s.op.made
    case FinishReload => s.op.Reload? && s.op.stage.Install? && s.op.left == {} && s.op.made == map[]
    case BeginStop => s.op.NoOp?
    case CancelNext(u) => s.op.Halt? && u in s.op.ahead && u < |s.slots|
    case FinishStop => s.op.Halt? && s.op.ahead == {} && AllDone(s, s.op.stopping)
  }

  /** A unit lets go of the trampoline only if it still owns it. */
  function Release(owner: map<string, nat>, slot: Slot): map<string, nat> {
    if slot.runner.Some? && slot.acct in owner && owner[slot.acct] == slot.runner.value
    then owner - {slot.acct}
    else owner
  }

  function InPhase(s: Pool, u: nat, phase: Phase): Pool
    requires u < |s.slots|
  {
    s.(slots := s.slots[u := s.slots[u].(phase := phase)])
  }

  function OldUnits(s: Pool, scope: Scope): set<nat> {
    set u | u in s.roster && u < |s.slots| && InScope(scope, s.slots[u].acct)
  }

  function Cancelled(slots: seq<Slot>, units: set<nat>): (r: seq<Slot>)
    ensures |r| == |slots|
    ensures forall u :: 0 <= u < |slots| ==>
              r[u] == if u in units then slots[u].(cancelled := true) else slots[u]
  {
    seq(|slots|, u requires 0 <= u < |slots| => if u in units then slots[u].(cancelled := true) else slots[u])
  }

  function Runners(s: Pool, units: set<nat>): set<nat> {
    set u | u in units && u < |s.slots| && s.slots[u].runner.Some? :: s.slots[u].runner.value
  }

  function Apply(s: Pool, e: Event): Pool
    requires Enabled(s, e)
  {
    match e
    case Return(u) => InPhase(s, u, Done)
    case Panic(u) => InPhase(s, u, Waiting)
    case GiveUp(u) => InPhase(s, u, Done)
    case TakeLock(u) => InPhase(s, u, Checking).(lock := ByUnit(u))
    case Check(u) =>
      if s.slots[u].cancelled then InPhase(s, u, Done).(lock := Free)
      else InPhase(s, u, Building).(owner := Release(s.owner, s.slots[u]))
    case Rebuild(u, built) =>
      (match built
       case NewRunner =>
         s.(slots := s.slots[u := s.slots[u].(runner := Some(s.runners), phase := Running)],
            owner := s.owner[s.slots[u].acct := s.runners], runners := s.runners + 1, lock := Free)
       case NewIdle => s.(slots := s.slots[u := s.slots[u].(runner := None, phase := Running)], lock := Free)
       case Panicked => InPhase(s, u, Waiting).(lock := Free))
    case BeginReload(scope, accts) =>
      s.(op := Reload(Make, scope, accts, map[], {}, {}, {}), lock := ByOp, base := true)
    case MakeNext(runs) =>
      var a := s.op.todo[0];
      var op := s.op.(todo := s.op.todo[1..]);
      if runs then s.(op := op.(made := op.made[a := Some(s.runners)]), owner := s.owner[a := s.runners],
                      runners := s.runners + 1)
      else s.(op := op.(made := op.made[a := None]))
    case CancelOld =>
      var leaving := OldUnits(s, s.op.scope);
      s.(slots := Cancelled(s.slots, leaving), lock := Free,
         op := s.op.(stage := Await, leaving := leaving, left := leaving))
    case AwaitDone => s.(op := s.op.(stage := Install))
    case UnhookNext(u) => s.(owner := Release(s.owner, s.slots[u]), op := s.op.(left := s.op.left - {u}))
    case LaunchNext(acct) =>
      s.(slots := s.slots + [Slot(acct, s.op.made[acct], false, Running)],
         op := s.op.(made := s.op.made - {acct}, spawned := s.op.spawned + {|s.slots|}))
    case FinishReload => s.(roster := s.roster - s.op.leaving + s.op.spawned, op := NoOp)
    case BeginStop => s.(op := Halt(s.roster, s.roster), roster := {}, base := false)
    case CancelNext(u) => s.(slots := Cancelled(s.slots, {u}), op := s.op.(ahead := s.op.ahead - {u}))
    case FinishStop => s.(op := NoOp, stranded := s.stranded + Runners(s, s.op.stopping))
  }

  // ----- Invariant -----

  /** The units that the pool, or the operation in hand, knows. */
  function Members(roster: set<nat>, op: Op): set<nat> {
    roster + match op
             case NoOp => {}
             case Reload(_, _, _, _, _, _, spawned) => spawned
             case Halt(stopping, _) => stopping
  }

  function MadeNow(op: Op): map<string, Option<nat>> {
    if op.Reload? then op.made else map[]
  }

  /** At most one unit an account is not done, and the pool knows it. */
  ghost predicate Alone(slots: seq<Slot>, members: set<nat>) {
    && (forall i, j :: 0 <= i < j < |slots| && !slots[i].phase.Done? && !slots[j].phase.Done? ==>
          slots[i].acct != slots[j].acct)
    && (forall i :: 0 <= i < |slots| && !slots[i].phase.Done? ==> i in members)
    && (forall i :: i in members ==> i < |slots|)
  }

  /** buildMu is held by the reload that builds, or by the one unit that restarts. */
  ghost predicate Locked(slots: seq<Slot>, lock: Holder, op: Op) {
    && (lock.ByOp? <==> op.Reload? && op.stage.Make?)
    && (lock.ByUnit? ==> lock.unit < |slots|)
    && (forall i :: 0 <= i < |slots| ==> (lock == ByUnit(i) <==> slots[i].phase.Checking? || slots[i].phase.Building?))
  }

  ghost predicate Todo(op: Op)
    requires op.Reload?
  {
    && op.leaving == op.left == op.spawned == {}
    && (forall i :: 0 <= i < |op.todo| ==> InScope(op.scope, op.todo[i]) && op.todo[i] !in op.made)
    && (forall i, j :: 0 <= i < j < |op.todo| ==> op.todo[i] != op.todo[j])
  }

  /** The units of its scope are cancelled, none of them restarts, and once they are done new ones are spawned. */
  ghost predicate Replacing(slots: seq<Slot>, roster: set<nat>, op: Op)
    requires op.Reload?
  {
    && op.left <= op.leaving && op.leaving <= roster
    && (forall u :: u in roster && u < |slots| ==> (u in op.leaving <==> InScope(op.scope, slots[u].acct)))
    && (forall u :: u in op.leaving && u < |slots| ==> slots[u].cancelled && !slots[u].phase.Building?)
    && (if op.stage.Await? then op.left == op.leaving && op.spawned == {}
        else forall u :: u in op.leaving && u < |slots| ==> slots[u].phase.Done?)
    && (op.spawned != {} ==> op.left == {})
    && (forall u :: u in op.spawned ==>
          u < |slots| && u !in roster && InScope(op.scope, slots[u].acct) && slots[u].acct !in op.made)
  }

  ghost predicate OpSound(slots: seq<Slot>, roster: set<nat>, op: Op) {
    match op
    case NoOp => true
    case Reload(stage, scope, _, made, _, _, _) =>
      (forall a :: a in made ==> InScope(scope, a)) && if stage.Make? then Todo(op) else Replacing(slots, roster, op)
    case Halt(stopping, ahead) => roster == {} && ahead <= stopping
  }

  /** No runner is built twice, or for two. */
  ghost predicate Apart(slots: seq<Slot>, made: map<string, Option<nat>>, runners: nat) {
    && (forall i :: 0 <= i < |slots| && slots[i].runner.Some? ==> slots[i].runner.value < runners)
    && (forall i, j :: 0 <= i < j < |slots| && slots[i].runner.Some? ==> slots[i].runner != slots[j].runner)
    && (forall a :: a in made && made[a].Some? ==> made[a].value < runners)
    && (forall a, i :: a in made && made[a].Some? && 0 <= i < |slots| ==> made[a] != slots[i].runner)
    && (forall a, b :: a in made && b in made && a != b && made[a].Some? ==> made[a] != made[b])
  }

  predicate Owns(owner: map<string, nat>, a: string, r: nat) { a in owner && owner[a] == r }

  predicate HasNewRunner(made: map<string, Option<nat>>, a: string) { a in made && made[a].Some? }

  /** A built replacement owns its account at once; else every running runner owns its own. */
  ghost predicate Wired(slots: seq<Slot>, made: map<string, Option<nat>>, owner: map<string, nat>) {
    && (forall a :: HasNewRunner(made, a) ==> Owns(owner, a, made[a].value))
    && (forall u :: 0 <= u < |slots| && slots[u].phase.Running? && slots[u].runner.Some?
                     && !HasNewRunner(made, slots[u].acct) ==>
          Owns(owner, slots[u].acct, slots[u].runner.value))
    && (forall u :: 0 <= u < |slots| && slots[u].phase.Building? && slots[u].runner.Some? ==>
          !Owns(owner, slots[u].acct, slots[u].runner.value))
  }

  /** Unit u, not yet released by the reload in hand, runs r for account a. */
  ghost predicate Holds(slots: seq<Slot>, roster: set<nat>, op: Op, u: nat, a: string, r: nat) {
    && u in Members(roster, op) && u < |slots| && slots[u].acct == a && slots[u].runner == Some(r)
    && !(op.Reload? && u in op.leaving - op.left)
  }

  /** Who may own a trampoline: the reload's new runner, else a known unit's, else one that Stop left. */
  ghost predicate OwnerSound(s: Pool, a: string, r: nat) {
    || (a in MadeNow(s.op) && MadeNow(s.op)[a] == Some(r))
    || (exists u :: Holds(s.slots, s.roster, s.op, u, a, r))
    || r in s.stranded
  }

  ghost predicate OwnersSound(s: Pool) {
    forall a :: a in s.owner ==> OwnerSound(s, a, s.owner[a])
  }

  ghost predicate Inv(s: Pool) {
    && Alone(s.slots, Members(s.roster, s.op)) && Locked(s.slots, s.lock, s.op) && OpSound(s.slots, s.roster, s.op)
    && Apart(s.slots, MadeNow(s.op), s.runners) && Wired(s.slots, MadeNow(s.op), s.owner)
    && OwnersSound(s)
  }

  /** A unit that restarts has no replacement under way: the restart that lost the race never builds. */
  lemma NotReplaced(s: Pool, u: nat)
    requires Inv(s) && u < |s.slots| && !s.slots[u].phase.Done?
    requires s.slots[u].phase.Building? || (s.slots[u].phase.Checking? && !s.slots[u].cancelled)
    ensures s.slots[u].acct !in MadeNow(s.op)
    ensures s.op.Reload? ==> u !in s.op.leaving
  {}

  /** Owners that stay, of units that keep their runner, stay sound. */
  lemma OwnersKept(s: Pool, s': Pool)
    requires OwnersSound(s) && |s'.slots| == |s.slots| && s'.roster == s.roster && s'.op == s.op
               && s'.stranded == s.stranded
    requires forall u :: 0 <= u < |s.slots| ==>
               s'.slots[u].acct == s.slots[u].acct && s'.slots[u].runner == s.slots[u].runner
    requires forall a :: a in s'.owner ==> a in s.owner && s'.owner[a] == s.owner[a]
    ensures OwnersSound(s')
  {
    forall a | a in s'.owner ensures OwnerSound(s', a, s'.owner[a]) {
      if u :| Holds(s.slots, s.roster, s.op, u, a, s.owner[a]) {
        assert Holds(s'.slots, s'.roster, s'.op, u, a, s.owner[a]);
      }
    }
  }

  /** A unit that neither runs on nor holds buildMu, before and after, moves to another phase. */
  lemma PhaseChange(slots: seq<Slot>, u: nat, phase: Phase, members: set<nat>, roster: set<nat>, op: Op,
                    made: map<string, Option<nat>>, runners: nat, owner: map<string, nat>)
    requires u < |slots| && !slots[u].phase.Done? && !phase.Running? && !phase.Building?
    requires Alone(slots, members) && OpSound(slots, roster, op) && Apart(slots, made, runners)
               && Wired(slots, made, owner)
    ensures var next := slots[u := slots[u].(phase := phase)];
            Alone(next, members) && OpSound(next, roster, op) && Apart(next, made, runners) && Wired(next, made, owner)
  {}

  lemma UnitStep(s: Pool, e: Event)
    requires Inv(s) && Enabled(s, e) && (e.Return? || e.Panic? || e.GiveUp? || e.TakeLock?)
    ensures Inv(Apply(s, e))
  {
    var phase := if e.Panic? then Waiting else if e.TakeLock? then Checking else Done;
    PhaseChange(s.slots, e.u, phase, Members(s.roster, s.op), s.roster, s.op, MadeNow(s.op), s.runners, s.owner);
    OwnersKept(s, Apply(s, e));
  }

  lemma CheckCancelled(s: Pool, u: nat)
    requires Inv(s) && Enabled(s, Check(u)) && s.slots[u].cancelled
    ensures Inv(Apply(s, Check(u)))
  {
    PhaseChange(s.slots, u, Done, Members(s.roster, s.op), s.roster, s.op, MadeNow(s.op), s.runners, s.owner);
    OwnersKept(s, Apply(s, Check(u)));
  }

  /** A running unit keeps its trampoline when another unit lets go. */
  lemma ReleaseWired(slots: seq<Slot>, made: map<string, Option<nat>>, owner: map<string, nat>, runners: nat, u: nat)
    requires u < |slots| && !slots[u].phase.Running?
    requires Apart(slots, made, runners) && Wired(slots, made, owner)
    ensures Wired(slots, made, Release(owner, slots[u]))
  {}

  lemma BuildingChange(slots: seq<Slot>, u: nat, members: set<nat>, roster: set<nat>, op: Op,
                       made: map<string, Option<nat>>, runners: nat, owner: map<string, nat>)
    requires u < |slots| && !slots[u].phase.Done? && (op.Reload? ==> u !in op.leaving)
    requires slots[u].runner.Some? ==> !Owns(owner, slots[u].acct, slots[u].runner.value)
    requires Alone(slots, members) && OpSound(slots, roster, op) && Apart(slots, made, runners)
               && Wired(slots, made, owner)
    ensures var next := slots[u := slots[u].(phase := Building)];
            Alone(next, members) && OpSound(next, roster, op) && Apart(next, made, runners) && Wired(next, made, owner)
  {}

  lemma CheckPassed(s: Pool, u: nat)
    requires Inv(s) && Enabled(s, Check(u)) && !s.slots[u].cancelled
    ensures Inv(Apply(s, Check(u)))
  {
    NotReplaced(s, u);
    ReleaseWired(s.slots, MadeNow(s.op), s.owner, s.runners, u);
    BuildingChange(s.slots, u, Members(s.roster, s.op), s.roster, s.op, MadeNow(s.op), s.runners,
                   Release(s.owner, s.slots[u]));
    OwnersKept(s, Apply(s, Check(u)));
  }

  /** A restarted unit runs again, with a runner of its own or none. */
  lemma RunsAgain(slots: seq<Slot>, u: nat, runner: Option<nat>, members: set<nat>, roster: set<nat>, op: Op,
                  made: map<string, Option<nat>>, runners: nat, owner: map<string, nat>)
    requires u < |slots| && slots[u].phase.Building? && (op.Reload? ==> u !in op.leaving) && slots[u].acct !in made
    requires runner == None || runner == Some(runners)
    requires Alone(slots, members) && OpSound(slots, roster, op) && Apart(slots, made, runners)
               && Wired(slots, made, owner)
    ensures var next := slots[u := slots[u].(runner := runner, phase := Running)];
            && Alone(next, members) && OpSound(next, roster, op)
            && Apart(next, made, runners + if runner.Some? then 1 else 0)
            && Wired(next, made, if runner.Some? then owner[slots[u].acct := runners] else owner)
  {}

  lemma RebuildStep(s: Pool, u: nat, built: Built)
    requires Inv(s) && Enabled(s, Rebuild(u, built)) && !built.Panicked?
    ensures Inv(Apply(s, Rebuild(u, built)))
  {
    var s' := Apply(s, Rebuild(u, built));
    NotReplaced(s, u);
    RunsAgain(s.slots, u, if built.NewRunner? then Some(s.runners) else None, Members(s.roster, s.op), s.roster, s.op,
              MadeNow(s.op), s.runners, s.owner);
    forall a | a in s'.owner ensures OwnerSound(s', a, s'.owner[a]) {
      if a == s.slots[u].acct && built.NewRunner? {
        assert Holds(s'.slots, s'.roster, s'.op, u, a, s.runners);
      } else if v :| Holds(s.slots, s.roster, s.op, v, a, s.owner[a]) {
        assert Holds(s'.slots, s'.roster, s'.op, v, a, s.owner[a]);
      }
    }
  }

  lemma RebuildPanics(s: Pool, u: nat)
    requires Inv(s) && Enabled(s, Rebuild(u, Panicked))
    ensures Inv(Apply(s, Rebuild(u, Panicked)))
  {
    PhaseChange(s.slots, u, Waiting, Members(s.roster, s.op), s.roster, s.op, MadeNow(s.op), s.runners, s.owner);
    OwnersKept(s, Apply(s, Rebuild(u, Panicked)));
  }

  // ----- Reload -----

  /** Owners that stay stay sound when what a unit holds, and what is made, is not lost. */
  lemma OwnersCarry(s: Pool, s': Pool)
    requires OwnersSound(s) && s.stranded <= s'.stranded
    requires forall a :: a in s'.owner ==> Owns(s.owner, a, s'.owner[a]) || OwnerSound(s', a, s'.owner[a])
    requires forall u, a, r :: Holds(s.slots, s.roster, s.op, u, a, r) && Owns(s'.owner, a, r) ==>
               Holds(s'.slots, s'.roster, s'.op, u, a, r) || OwnerSound(s', a, r)
    requires forall a :: HasNewRunner(MadeNow(s.op), a) && Owns(s'.owner, a, MadeNow(s.op)[a].value) ==>
               OwnerSound(s', a, MadeNow(s.op)[a].value)
    ensures OwnersSound(s')
  {
    forall a | a in s'.owner ensures OwnerSound(s', a, s'.owner[a]) {
      var r := s'.owner[a];
      if Owns(s.owner, a, r) {
        if u :| Holds(s.slots, s.roster, s.op, u, a, r) {}
      }
    }
  }

  lemma BeginReloadStep(s: Pool, scope: Scope, accts: seq<string>)
    requires Inv(s) && Enabled(s, BeginReload(scope, accts))
    ensures Inv(Apply(s, BeginReload(scope, accts)))
  {
    OwnersCarry(s, Apply(s, BeginReload(scope, accts)));
  }

  lemma MakeStep(s: Pool, runs: bool)
    requires Inv(s) && Enabled(s, MakeNext(runs))
    ensures Inv(Apply(s, MakeNext(runs)))
  {
    var s' := Apply(s, MakeNext(runs));
    MadeOne(s.slots, MadeNow(s.op), s.runners, s.owner, s.op.todo[0], runs);
    OwnersCarry(s, s');
  }

  lemma MadeOne(slots: seq<Slot>, made: map<string, Option<nat>>, runners: nat, owner: map<string, nat>, a: string,
                runs: bool)
    requires Apart(slots, made, runners) && Wired(slots, made, owner) && a !in made
    requires forall u :: 0 <= u < |slots| ==> !slots[u].phase.Building?
    ensures var made' := made[a := if runs then Some(runners) else None];
            Apart(slots, made', if runs then runners + 1 else runners)
            && Wired(slots, made', if runs then owner[a := runners] else owner)
  {}

  lemma CancelKeeps(slots: seq<Slot>, units: set<nat>, members: set<nat>, lock: Holder, op: Op,
                    made: map<string, Option<nat>>, runners: nat, owner: map<string, nat>)
    requires Alone(slots, members) && Locked(slots, lock, op) && Apart(slots, made, runners)
               && Wired(slots, made, owner)
    ensures var next := Cancelled(slots, units);
            Alone(next, members) && Locked(next, lock, op) && Apart(next, made, runners) && Wired(next, made, owner)
  {}

  lemma CancelOldStep(s: Pool)
    requires Inv(s) && Enabled(s, CancelOld)
    ensures Inv(Apply(s, CancelOld))
  {
    CancelKeeps(s.slots, OldUnits(s, s.op.scope), Members(s.roster, s.op), s.lock, s.op, MadeNow(s.op), s.runners,
                s.owner);
    OwnersCarry(s, Apply(s, CancelOld));
  }

  lemma AwaitStep(s: Pool)
    requires Inv(s) && Enabled(s, AwaitDone)
    ensures Inv(Apply(s, AwaitDone))
  {
    OwnersCarry(s, Apply(s, AwaitDone));
  }

  lemma UnhookStep(s: Pool, u: nat)
    requires Inv(s) && Enabled(s, UnhookNext(u))
    ensures Inv(Apply(s, UnhookNext(u)))
  {
    ReleaseWired(s.slots, MadeNow(s.op), s.owner, s.runners, u);
    OwnersCarry(s, Apply(s, UnhookNext(u)));
  }

  /** A made unit starts for an account all whose units are done. */
  lemma Launched(slots: seq<Slot>, acct: string, members: set<nat>, lock: Holder, op: Op,
                 made: map<string, Option<nat>>, runners: nat, owner: map<string, nat>)
    requires acct in made && forall u :: 0 <= u < |slots| && slots[u].acct == acct ==> slots[u].phase.Done?
    requires Alone(slots, members) && Locked(slots, lock, op) && Apart(slots, made, runners)
               && Wired(slots, made, owner)
    ensures var next := slots + [Slot(acct, made[acct], false, Running)];
            && Alone(next, members + {|slots|}) && Locked(next, lock, op)
            && Apart(next, made - {acct}, runners) && Wired(next, made - {acct}, owner)
  {}

  lemma LaunchStep(s: Pool, acct: string)
    requires Inv(s) && Enabled(s, LaunchNext(acct))
    ensures Inv(Apply(s, LaunchNext(acct)))
  {
    var s' := Apply(s, LaunchNext(acct));
    Launched(s.slots, acct, Members(s.roster, s.op), s.lock, s.op, MadeNow(s.op), s.runners, s.owner);
    assert Members(s'.roster, s'.op) == Members(s.roster, s.op) + {|s.slots|};
    LaunchOwners(s, acct);
  }

  lemma LaunchOwners(s: Pool, acct: string)
    requires Inv(s) && Enabled(s, LaunchNext(acct))
    ensures OwnersSound(Apply(s, LaunchNext(acct)))
  {
    var s' := Apply(s, LaunchNext(acct));
    assert HasNewRunner(MadeNow(s.op), acct) ==>
               Holds(s'.slots, s'.roster, s'.op, |s.slots|, acct, s.op.made[acct].value);
    OwnersCarry(s, s');
  }

  lemma FinishStep(s: Pool)
    requires Inv(s) && Enabled(s, FinishReload)
    ensures Inv(Apply(s, FinishReload))
  {
    OwnersCarry(s, Apply(s, FinishReload));
  }

  // ----- Stop -----

  lemma BeginStopStep(s: Pool)
    requires Inv(s) && Enabled(s, BeginStop)
    ensures Inv(Apply(s, BeginStop))
  {
    OwnersCarry(s, Apply(s, BeginStop));
  }

  lemma CancelStep(s: Pool, u: nat)
    requires Inv(s) && Enabled(s, CancelNext(u))
    ensures Inv(Apply(s, CancelNext(u)))
  {
    CancelKeeps(s.slots, {u}, Members(s.roster, s.op), s.lock, s.op, MadeNow(s.op), s.runners, s.owner);
    OwnersCarry(s, Apply(s, CancelNext(u)));
  }

  lemma FinishStopStep(s: Pool)
    requires Inv(s) && Enabled(s, FinishStop)
    ensures Inv(Apply(s, FinishStop))
  {
    OwnersCarry(s, Apply(s, FinishStop));
  }

  lemma EveryStep(s: Pool, e: Event)
    requires Inv(s) && Enabled(s, e)
    ensures Inv(Apply(s, e))
  {
    match e
    case Check(u) => if s.slots[u].cancelled { CheckCancelled(s, u); } else { CheckPassed(s, u); }
    case Rebuild(u, built) => if built.Panicked? { RebuildPanics(s, u); } else { RebuildStep(s, u, built); }
    case BeginReload(scope, accts) => BeginReloadStep(s, scope, accts);
    case MakeNext(runs) => MakeStep(s, runs);
    case CancelOld => CancelOldStep(s);
    case AwaitDone => AwaitStep(s);
    case UnhookNext(u) => UnhookStep(s, u);
    case LaunchNext(acct) => LaunchStep(s, acct);
    case FinishReload => FinishStep(s);
    case BeginStop => BeginStopStep(s);
    case CancelNext(u) => CancelStep(s, u);
    case FinishStop => FinishStopStep(s);
    case _ => UnitStep(s, e);
  }

  // ----- Whole runs -----

  predicate Legal(s: Pool, events: seq<Event>)
    decreases |events|
  {
    events == [] || (Enabled(s, events[0]) && Legal(Apply(s, events[0]), events[1..]))
  }

  /** The pool after the events, in any interleaving of restarts, reloads and stops. */
  function Play(s: Pool, events: seq<Event>): Pool
    requires Legal(s, events)
    decreases |events|
  {
    if events == [] then s else Play(Apply(s, events[0]), events[1..])
  }

  predicate Reaches(events: seq<Event>, s: Pool) {
    Legal(EMPTY, events) && s == Play(EMPTY, events)
  }

  lemma {:induction false} InvPlay(s: Pool, events: seq<Event>)
    requires Inv(s) && Legal(s, events)
    ensures Inv(Play(s, events))
    decreases |events|
  {
    if events != [] {
      EveryStep(s, events[0]);
      InvPlay(Apply(s, events[0]), events[1..]);
    }
  }

  /** At most one unit an account runs, waits to restart or restarts. */
  lemma OneUnitEach(events: seq<Event>, s: Pool, i: nat, j: nat)
    requires Reaches(events, s)
    requires i < |s.slots| && j < |s.slots| && i != j && s.slots[i].acct == s.slots[j].acct
    ensures s.slots[i].phase.Done? || s.slots[j].phase.Done?
  {
    InvPlay(EMPTY, events);
    assert Alone(s.slots, Members(s.roster, s.op));
  }

  /** A restart that builds has not been replaced: no reload in hand has built for its account. */
  lemma LostRaceNeverBuilds(events: seq<Event>, s: Pool, u: nat, built: Built)
    requires Reaches(events, s) && Enabled(s, Rebuild(u, built))
    ensures s.slots[u].acct !in MadeNow(s.op) && (s.op.Reload? ==> u !in s.op.leaving)
  {
    InvPlay(EMPTY, events);
    NotReplaced(s, u);
  }

  /**
   Once a replacement runner is built it owns its account's trampoline, and no retired runner does;
   otherwise an account's running runner owns it. A trampoline never forwards to a runner that no
   unit runs, but for those that Stop left.
   */
  lemma TrampolineOwner(events: seq<Event>, s: Pool, a: string)
    requires Reaches(events, s)
    ensures HasNewRunner(MadeNow(s.op), a) ==> Owns(s.owner, a, MadeNow(s.op)[a].value)
    ensures !HasNewRunner(MadeNow(s.op), a) ==>
              forall u :: 0 <= u < |s.slots| && s.slots[u].acct == a && s.slots[u].phase.Running?
                           && s.slots[u].runner.Some? ==>
                Owns(s.owner, a, s.slots[u].runner.value)
    ensures a in s.owner ==> OwnerSound(s, a, s.owner[a])
  {
    InvPlay(EMPTY, events);
  }

  // ----- Removing an account -----

  /** The runners that Stop left belong to units that are done and that the pool no longer knows. */
  ghost predicate Retired(s: Pool) {
    && (forall r :: r in s.stranded ==> r < s.runners)
    && (forall a :: HasNewRunner(MadeNow(s.op), a) ==> MadeNow(s.op)[a].value !in s.stranded)
    && (forall u :: 0 <= u < |s.slots| && Stranded(s, u) ==> s.slots[u].phase.Done? && u !in Members(s.roster, s.op))
  }

  predicate Stranded(s: Pool, u: nat)
    requires u < |s.slots|
  {
    s.slots[u].runner.Some? && s.slots[u].runner.value in s.stranded
  }

  lemma RetiredUnit(s: Pool, e: Event)
    requires Inv(s) && Retired(s) && Enabled(s, e)
    requires e.Return? || e.Panic? || e.GiveUp? || e.TakeLock? || e.Check?
    ensures Retired(Apply(s, e))
  {
    var s' := Apply(s, e);
    forall u | 0 <= u < |s'.slots| && Stranded(s', u)
      ensures s'.slots[u].phase.Done? && u !in Members(s'.roster, s'.op)
    {
      assert Stranded(s, u);
    }
  }

  lemma RetiredRebuild(s: Pool, u: nat, built: Built)
    requires Inv(s) && Retired(s) && Enabled(s, Rebuild(u, built))
    ensures Retired(Apply(s, Rebuild(u, built)))
  {
    var s' := Apply(s, Rebuild(u, built));
    forall v | 0 <= v < |s'.slots| && Stranded(s', v)
      ensures s'.slots[v].phase.Done? && v !in Members(s'.roster, s'.op)
    {
      if v != u { assert Stranded(s, v); }
    }
  }

  lemma RetiredReload(s: Pool, e: Event)
    requires Inv(s) && Retired(s) && Enabled(s, e)
    requires e.BeginReload? || e.MakeNext? || e.CancelOld? || e.AwaitDone? || e.UnhookNext? || e.FinishReload?
             || e.BeginStop? || e.CancelNext?
    ensures Retired(Apply(s, e))
  {
    var s' := Apply(s, e);
    assert Members(s'.roster, s'.op) <= Members(s.roster, s.op);
    forall u | 0 <= u < |s'.slots| && Stranded(s', u)
      ensures s'.slots[u].phase.Done? && u !in Members(s'.roster, s'.op)
    {
      assert Stranded(s, u);
    }
  }

  lemma RetiredLaunch(s: Pool, acct: string)
    requires Inv(s) && Retired(s) && Enabled(s, LaunchNext(acct))
    ensures Retired(Apply(s, LaunchNext(acct)))
  {
    var s' := Apply(s, LaunchNext(acct));
    forall u | 0 <= u < |s'.slots| && Stranded(s', u)
      ensures s'.slots[u].phase.Done? && u !in Members(s'.roster, s'.op)
    {
      if u < |s.slots| {
        assert Stranded(s, u);
      } else {
        assert HasNewRunner(MadeNow(s.op), acct);
      }
    }
  }

  lemma RetiredStop(s: Pool)
    requires Inv(s) && Retired(s) && Enabled(s, FinishStop)
    ensures Retired(Apply(s, FinishStop))
  {
    var s' := Apply(s, FinishStop);
    forall u | 0 <= u < |s'.slots| && Stranded(s', u)
      ensures s'.slots[u].phase.Done? && u !in Members(s'.roster, s'.op)
    {
      if !Stranded(s, u) {
        var v :| v in s.op.stopping && v < |s.slots| && s.slots[v].runner.Some?
                 && s.slots[v].runner.value == s.slots[u].runner.value;
        assert u == v;
      }
    }
  }

  lemma RetiredStep(s: Pool, e: Event)
    requires Inv(s) && Retired(s) && Enabled(s, e)
    ensures Retired(Apply(s, e))
  {
    match e
    case Rebuild(u, built) => RetiredRebuild(s, u, built);
    case LaunchNext(acct) => RetiredLaunch(s, acct);
    case FinishStop => RetiredStop(s);
    case Return(_) => RetiredUnit(s, e);
    case Panic(_) => RetiredUnit(s, e);
    case GiveUp(_) => RetiredUnit(s, e);
    case TakeLock(_) => RetiredUnit(s, e);
    case Check(_) => RetiredUnit(s, e);
    case _ => RetiredReload(s, e);
  }

  lemma {:induction false} RetiredPlay(s: Pool, events: seq<Event>)
    requires Inv(s) && Retired(s) && Legal(s, events)
    ensures Retired(Play(s, events))
    decreases |events|
  {
    if events != [] {
      EveryStep(s, events[0]);
      RetiredStep(s, events[0]);
      RetiredPlay(Apply(s, events[0]), events[1..]);
    }
  }

  /** A reload of account a alone that builds nothing: it removes the account. */
  predicate Removing(s: Pool, a: string) {
    s.op.Reload? && s.op.scope == One(a) && s.op.todo == [] && s.op.made == map[] && s.op.spawned == {}
  }

  /** The trampoline of a forwards to a runner that Stop left. */
  predicate LeftWired(s: Pool, a: string) { a in s.owner && s.owner[a] in s.stranded }

  /** While a is removed no unit of a restarts, so a runner that Stop left keeps its trampoline, and gets none. */
  lemma RemovalStep(s: Pool, a: string, e: Event)
    requires Inv(s) && Retired(s) && Removing(s, a) && Enabled(s, e) && !e.FinishReload?
    ensures var s' := Apply(s, e);
            && Removing(s', a) && (LeftWired(s', a) <==> LeftWired(s, a))
            && (LeftWired(s, a) ==> s'.owner[a] == s.owner[a])
  {
    match e
    case Check(u) => assert !Stranded(s, u);
    case UnhookNext(u) => assert u in Members(s.roster, s.op) && !Stranded(s, u);
    case Rebuild(u, built) => NoRestart(s, a, u);
    case _ =>
  }

  lemma NoRestart(s: Pool, a: string, u: nat)
    requires Inv(s) && Removing(s, a) && u < |s.slots| && s.slots[u].phase.Building?
    ensures s.slots[u].acct != a
  {
    assert u in Members(s.roster, s.op) && u in s.roster;
  }

  lemma {:induction false} RemovalRun(s: Pool, a: string, events: seq<Event>)
    requires Inv(s) && Retired(s) && Removing(s, a) && Legal(s, events) && FinishReload !in events
    ensures var t := Play(s, events);
            && Inv(t) && Removing(t, a) && (LeftWired(t, a) <==> LeftWired(s, a))
            && (LeftWired(s, a) ==> t.owner[a] == s.owner[a])
    decreases |events|
  {
    if events != [] {
      var e := events[0];
      assert e in events;
      EveryStep(s, e);
      RetiredStep(s, e);
      RemovalStep(s, a, e);
      RemovalRun(Apply(s, e), a, events[1..]);
    }
  }

  /** Once a removal is over no unit of the account is listed, and only a runner that Stop left may own it. */
  lemma RemovalEnds(s: Pool, a: string)
    requires Inv(s) && Removing(s, a) && Enabled(s, FinishReload)
    ensures var s' := Apply(s, FinishReload);
            && (forall u :: u in s'.roster && u < |s'.slots| ==> s'.slots[u].acct != a)
            && (a in s'.owner <==> LeftWired(s, a)) && s'.owner == s.owner
  {
    assert OpSound(s.slots, s.roster, s.op);
    if a in s.owner {
      assert OwnerSound(s, a, s.owner[a]);
    }
  }

  /**
   Removing an account leaves its trampoline wired if and only if it forwards to a runner that Stop left when
   the removal begins, and else empty, whatever else goes on until the removal ends; no unit of it is listed.
   */
  lemma RemovalEmpties(before: seq<Event>, s: Pool, a: string, during: seq<Event>, t: Pool)
    requires Reaches(before, s) && Enabled(s, BeginReload(One(a), []))
    requires Legal(Apply(s, BeginReload(One(a), [])), during) && FinishReload !in during
    requires t == Play(Apply(s, BeginReload(One(a), [])), during) && Enabled(t, FinishReload)
    ensures var s' := Apply(t, FinishReload);
            && (forall u :: u in s'.roster && u < |s'.slots| ==> s'.slots[u].acct != a)
            && (a in s'.owner <==> a in s.owner && s.owner[a] in s.stranded)
            && (a in s'.owner ==> s'.owner[a] == s.owner[a])
  {
    InvPlay(EMPTY, before);
    RetiredPlay(EMPTY, before);
    var e := BeginReload(One(a), []);
    EveryStep(s, e);
    RetiredStep(s, e);
    RemovalRun(Apply(s, e), a, during);
    RemovalEnds(t, a);
  }

  /** Without a Stop no runner is left over, so removals do leave empty trampolines. */
  lemma {:induction false} NothingStranded(s: Pool, events: seq<Event>)
    requires Legal(s, events) && s.stranded == {} && !s.op.Halt? && BeginStop !in events
    ensures Play(s, events).stranded == {}
    decreases |events|
  {
    if events != [] {
      assert events[0] in events;
      NothingStranded(Apply(s, events[0]), events[1..]);
    }
  }

  lemma Then(s: Pool, events: seq<Event>, e: Event)
    requires Legal(s, events) && Enabled(Play(s, events), e)
    ensures Legal(s, events + [e]) && Play(s, events + [e]) == Apply(Play(s, events), e)
    decreases |events|
  {
    if events != [] {
      Then(Apply(s, events[0]), events[1..], e);
      assert (events + [e])[1..] == events[1..] + [e];
    }
  }

  /** A reload that builds nothing and finds no unit changes nothing but the base context. */
  lemma EmptyReload(s: Pool, events: seq<Event>, scope: Scope)
    requires Reaches(events, s) && s.roster == {} && s.op.NoOp? && s.lock.Free? && (scope.One? ==> s.base)
    ensures Reaches(events + [BeginReload(scope, []), CancelOld, AwaitDone, FinishReload], s.(base := true))
  {
    var s1 := Apply(s, BeginReload(scope, []));
    Then(EMPTY, events, BeginReload(scope, []));
    var e1 := events + [BeginReload(scope, [])];
    assert OldUnits(s1, scope) == {};
    assert Cancelled(s1.slots, {}) == s1.slots;
    Then(EMPTY, e1, CancelOld);
    var s2 := Apply(s1, CancelOld);
    Then(EMPTY, e1 + [CancelOld], AwaitDone);
    var s3 := Apply(s2, AwaitDone);
    Then(EMPTY, e1 + [CancelOld] + [AwaitDone], FinishReload);
    assert Apply(s3, FinishReload) == s.(base := true);
    assert e1 + [CancelOld] + [AwaitDone] + [FinishReload]
             == events + [BeginReload(scope, []), CancelOld, AwaitDone, FinishReload];
  }

  /** Account "a" runs. */
  lemma Starts() returns (events: seq<Event>)
    ensures Reaches(events, Pool([Slot("a", Some(0), false, Running)], {0}, map["a" := 0], 1, Free, NoOp, true, {}))
  {
    events := [BeginReload(All, ["a"])];
    var s := Apply(EMPTY, events[0]);
    Then(EMPTY, [], events[0]);
    Then(EMPTY, events, MakeNext(true));
    events, s := events + [MakeNext(true)], Apply(s, MakeNext(true));
    assert ["a"][1..] == [];
    assert s == Pool([], {}, map["a" := 0], 1, ByOp, Reload(Make, All, [], map["a" := Some(0)], {}, {}, {}), true, {});
    assert OldUnits(s, All) == {};
    Then(EMPTY, events, CancelOld);
    events, s := events + [CancelOld], Apply(s, CancelOld);
    Then(EMPTY, events, AwaitDone);
    events, s := events + [AwaitDone], Apply(s, AwaitDone);
    assert s == Pool([], {}, map["a" := 0], 1, Free, Reload(Install, All, [], map["a" := Some(0)], {}, {}, {}),
                     true, {});
    Launches(events, s);
    events := events + [LaunchNext("a")] + [FinishReload];
  }

  lemma Launches(events: seq<Event>, s: Pool)
    requires Reaches(events, s)
    requires s == Pool([], {}, map["a" := 0], 1, Free, Reload(Install, All, [], map["a" := Some(0)], {}, {}, {}),
                       true, {})
    ensures Reaches(events + [LaunchNext("a")] + [FinishReload],
                    Pool([Slot("a", Some(0), false, Running)], {0}, map["a" := 0], 1, Free, NoOp, true, {}))
  {
    Then(EMPTY, events, LaunchNext("a"));
    var s1 := Apply(s, LaunchNext("a"));
    assert s1.op.made == map[];
    Then(EMPTY, events + [LaunchNext("a")], FinishReload);
  }

  /** Then everything stops. */
  lemma Stops(events: seq<Event>, s: Pool)
    requires Reaches(events, s)
    requires s == Pool([Slot("a", Some(0), false, Running)], {0}, map["a" := 0], 1, Free, NoOp, true, {})
    ensures Reaches(events + [BeginStop] + [CancelNext(0)] + [Return(0)] + [FinishStop],
                    Pool([Slot("a", Some(0), true, Done)], {}, map["a" := 0], 1, Free, NoOp, false, {0}))
  {
    Then(EMPTY, events, BeginStop);
    var s1 := Apply(s, BeginStop);
    Then(EMPTY, events + [BeginStop], CancelNext(0));
    var s2 := Apply(s1, CancelNext(0));
    Then(EMPTY, events + [BeginStop] + [CancelNext(0)], Return(0));
    var s3 := Apply(s2, Return(0));
    assert s3.slots == [Slot("a", Some(0), true, Done)];
    assert Runners(s3, {0}) == {0};
    Then(EMPTY, events + [BeginStop] + [CancelNext(0)] + [Return(0)], FinishStop);
  }

  /**
   The exception is real. One account runs, Stop ends it, a reload brings the roster back without it
   and it is removed: its trampoline still forwards to the stopped runner, which Stop never released.
   */
  lemma StopLeavesWired() returns (events: seq<Event>, s: Pool)
    ensures Reaches(events + [BeginReload(One("a"), []), CancelOld, AwaitDone, FinishReload], s)
    ensures s.roster == {} && s.op.NoOp? && s.owner == map["a" := 0] && s.slots == [Slot("a", Some(0), true, Done)]
  {
    events := Starts();
    s := Pool([Slot("a", Some(0), false, Running)], {0}, map["a" := 0], 1, Free, NoOp, true, {});
    Stops(events, s);
    events := events + [BeginStop] + [CancelNext(0)] + [Return(0)] + [FinishStop];
    s := Pool([Slot("a", Some(0), true, Done)], {}, map["a" := 0], 1, Free, NoOp, false, {0});
    EmptyReload(s, events, All);
    events := events + [BeginReload(All, []), CancelOld, AwaitDone, FinishReload];
    s := s.(base := true);
    EmptyReload(s, events, One("a"));
  }
}
