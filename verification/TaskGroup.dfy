/**
 * The task group that lets background goroutines be collected at shutdown: the critical sections
 * of its methods on the group object, and the protocol they form when interleaved.
 */
module TaskGroup {

  // ---------- the group object ----------

  /** A task context whose cancel function the group keeps. */
  class Context {
    var canceled: bool

    constructor ()
      ensures !canceled
    {
      canceled := false;
    }
  }

  type TaskId = nat

  class Group {
    var stoped: bool
    var wait: nat
    var running: map<TaskId, Context>

    constructor ()
      ensures Shows(IDLE)
    {
      stoped, wait, running := false, 0, map[];
    }

    /** The object is in the protocol's state: same flag, count and registrations, cancelled contexts alike. */
    ghost predicate Shows(s: State)
      reads this, running.Values
    {
      && stoped == s.stopped && wait == s.wait && running.Keys == s.running
      && forall t :: t in running ==> (running[t].canceled <==> t in s.cancelled)
    }

    /** The locked part of `Go`: counting the task and registering it is one critical section. */
    method Accept(id: TaskId, ghost s: State) returns (accepted: bool)
      requires Shows(s) && Inv(s) && Enabled(s, Action.Go(id))
      modifies this
      ensures Shows(Apply(s, Action.Go(id)))
      ensures accepted == !old(stoped)
      ensures accepted ==> running.Keys == old(running.Keys) + {id} && fresh(running[id])
    {
      if stoped {
        return false;
      }
      var ctx := new Context();
      wait := wait + 1;
      running := running[id := ctx];
      return true;
    }

    /** The locked part of `finish`. */
    method Unregister(id: TaskId, ghost s: State)
      requires Shows(s) && Enabled(s, Action.Unregister(id))
      modifies this
      ensures Shows(Apply(s, Action.Unregister(id)))
      ensures running == old(running) - {id}
    {
      running := running - {id};
    }

    /** `g.wait.Done()`: the WaitGroup never goes below zero. */
    method Done(id: TaskId, ghost s: State)
      requires Shows(s) && Inv(s) && Enabled(s, Action.Done(id))
      modifies this`wait
      ensures Shows(Apply(s, Action.Done(id)))
    {
      DoneFindsPositive(s, id);
      wait := wait - 1;
    }

    /** The locked part at the start of `Stop`. */
    method BeginStop(p: nat, waits: bool, timeout: int, ghost s: State)
      requires Shows(s) && Enabled(s, Action.BeginStop(p, waits, timeout))
      modifies this`stoped
      ensures Shows(Apply(s, Action.BeginStop(p, waits, timeout)))
    {
      stoped := true;
    }

    /** Cancels every registered task, in whatever order the map yields them. */
    method CancelRunning(p: nat, ghost s: State) returns (count: nat)
      requires Shows(s) && Enabled(s, Action.CancelRunning(p))
      modifies running.Values
      ensures Shows(Apply(s, Action.CancelRunning(p)))
      ensures count == |running|
      ensures forall c: Context :: c in old(running.Values) && old(c.canceled) ==> c.canceled
    {
      count := |running|;
      var todo := running.Keys;
      while todo != {}
        invariant todo <= running.Keys
        invariant forall t :: t in running && t !in todo ==> running[t].canceled
        invariant forall c: Context :: c in old(running.Values) && old(c.canceled) ==> c.canceled
        decreases todo
      {
        var t :| t in todo;
        running[t].canceled := true;
        todo := todo - {t};
      }
    }
  }

  /** A task that has not passed `Done` is counted. */
  lemma DoneFindsPositive(s: State, t: TaskId)
    requires Inv(s) && Enabled(s, Done(t))
    ensures s.wait > 0
  {
    assert t in Unfinished(s);
  }

  // ---------- the protocol ----------

  /** Running its function, inside `finish` before and after leaving the map, and through `Done`. */
  datatype Phase = Working | Finishing | Unregistered | Finished

  /** Where one call of `Stop` is. `waited` records that it left its select by the waited branch. */
  datatype StopPoint = Waiting(sawZero: bool) | Cancelling(waited: bool) | Returned(waited: bool)

  datatype State = State(stopped: bool, wait: int, running: set<TaskId>, cancelled: set<TaskId>,
                         tasks: map<TaskId, Phase>, stops: map<nat, StopPoint>)

  const IDLE := State(false, 0, {}, {}, map[], map[])

  datatype Action =
    | Go(task: TaskId)
    | Return(task: TaskId)                          // the task function returned or panicked
    | Unregister(task: TaskId)
    | Done(task: TaskId)
    | BeginStop(stop: nat, wait: bool, timeout: int)
    | SeeZero(stop: nat)                            // the helper goroutine's Wait returned
    | LeaveWaited(stop: nat)
    | LeaveTimeout(stop: nat)
    | CancelRunning(stop: nat)

  predicate Enabled(s: State, a: Action) {
    match a
    case Go(t) => t !in s.tasks
    case Return(t) => t in s.tasks && s.tasks[t] == Working
    case Unregister(t) => t in s.tasks && s.tasks[t] == Finishing
    case Done(t) => t in s.tasks && s.tasks[t] == Unregistered
    case BeginStop(p, _, _) => p !in s.stops
    case SeeZero(p) => p in s.stops && s.stops[p] == Waiting(false) && s.wait == 0
    case LeaveWaited(p) => p in s.stops && s.stops[p] == Waiting(true)
    case LeaveTimeout(p) => p in s.stops && s.stops[p].Waiting?
    case CancelRunning(p) => p in s.stops && s.stops[p].Cancelling?
  }

  function Apply(s: State, a: Action): State
    requires Enabled(s, a)
  {
    match a
    case Go(t) =>
      if s.stopped then s
      else s.(wait := s.wait + 1, running := s.running + {t}, tasks := s.tasks[t := Working])
    case Return(t) => s.(tasks := s.tasks[t := Finishing])
    case Unregister(t) => s.(running := s.running - {t}, tasks := s.tasks[t := Unregistered])
    case Done(t) => s.(wait := s.wait - 1, tasks := s.tasks[t := Finished])
    case BeginStop(p, wait, timeout) =>
      s.(stopped := true, stops := s.stops[p := if wait && timeout > 0 then Waiting(false) else Cancelling(false)])
    case SeeZero(p) => s.(stops := s.stops[p := Waiting(true)])
    case LeaveWaited(p) => s.(stops := s.stops[p := Cancelling(true)])
    case LeaveTimeout(p) => s.(stops := s.stops[p := Cancelling(false)])
    case CancelRunning(p) => s.(cancelled := s.cancelled + s.running,
                                stops := s.stops[p := Returned(s.stops[p].waited)])
  }

  /** A Stop may cancel at once exactly if it does not wait, or has no time to. */
  lemma CancelsAtOnceIff(s: State, p: nat, wait: bool, timeout: int)
    requires Enabled(s, BeginStop(p, wait, timeout))
    ensures var t := Apply(s, BeginStop(p, wait, timeout));
            && t.stopped
            && (Enabled(t, CancelRunning(p)) <==> !wait || timeout <= 0)
            && (Enabled(t, LeaveTimeout(p)) <==> wait && timeout > 0) && !Enabled(t, LeaveWaited(p))
  {
  }

  predicate Legal(s: State, actions: seq<Action>)
    decreases |actions|
  {
    actions == [] || (Enabled(s, actions[0]) && Legal(Apply(s, actions[0]), actions[1..]))
  }

  function After(s: State, actions: seq<Action>): State
    requires Legal(s, actions)
    decreases |actions|
  {
    if actions == [] then s else After(Apply(s, actions[0]), actions[1..])
  }

  // ---------- invariant ----------

  function In(tasks: map<TaskId, Phase>, phases: set<Phase>): set<TaskId> {
    set t | t in tasks && tasks[t] in phases
  }

  /** Accepted tasks that have not passed `Done`: running ones and those inside `finish`. */
  function Unfinished(s: State): set<TaskId> {
    In(s.tasks, {Working, Finishing, Unregistered})
  }

  /** A Stop whose WaitGroup reached zero, still in its select or past it. */
  predicate SawZero(at: StopPoint) {
    match at
    case Waiting(sawZero) => sawZero
    case Cancelling(waited) => waited
    case Returned(waited) => waited
  }

  ghost predicate Inv(s: State) {
    && s.wait == |Unfinished(s)|
    && s.running == In(s.tasks, {Working, Finishing})
    && s.cancelled <= s.tasks.Keys
    && (forall p :: p in s.stops ==> s.stopped)
    && (forall p :: p in s.stops && SawZero(s.stops[p]) ==> s.wait == 0)
    && (forall p :: p in s.stops && s.stops[p].Returned? ==> s.running <= s.cancelled)
  }

  lemma PhaseChange(tasks: map<TaskId, Phase>, t: TaskId, to: Phase, phases: set<Phase>)
    ensures In(tasks[t := to], phases) == if to in phases then In(tasks, phases) + {t} else In(tasks, phases) - {t}
  {
  }

  lemma GoKeepsInv(s: State, t: TaskId)
    requires Inv(s) && Enabled(s, Go(t))
    ensures Inv(Apply(s, Go(t)))
  {
    hide In;
    if !s.stopped {
      PhaseChange(s.tasks, t, Working, {Working, Finishing, Unregistered});
      PhaseChange(s.tasks, t, Working, {Working, Finishing});
      NotIn(s.tasks, t, {Working, Finishing, Unregistered});
    }
  }

  lemma FinishKeepsInv(s: State, a: Action)
    requires Inv(s) && Enabled(s, a) && (a.Return? || a.Unregister?)
    ensures Inv(Apply(s, a))
  {
    hide In;
    if a.Return? {
      PhaseKept(s.tasks, a.task, Finishing, {Working, Finishing, Unregistered});
      PhaseKept(s.tasks, a.task, Finishing, {Working, Finishing});
    } else {
      PhaseKept(s.tasks, a.task, Unregistered, {Working, Finishing, Unregistered});
      PhaseChange(s.tasks, a.task, Unregistered, {Working, Finishing});
    }
  }

  lemma DoneKeepsInv(s: State, t: TaskId)
    requires Inv(s) && Enabled(s, Done(t))
    ensures Inv(Apply(s, Done(t)))
  {
    hide In;
    PhaseChange(s.tasks, t, Finished, {Working, Finishing, Unregistered});
    PhaseChange(s.tasks, t, Finished, {Working, Finishing});
    NotIn(s.tasks, t, {Working, Finishing});
    IsIn(s.tasks, t, {Working, Finishing, Unregistered});
  }

  lemma StopKeepsInv(s: State, a: Action)
    requires Inv(s) && Enabled(s, a)
    requires (a.BeginStop? || a.SeeZero? || a.LeaveWaited? || a.LeaveTimeout? || a.CancelRunning?)
    ensures Inv(Apply(s, a))
  {
    hide In;
    InKeys(s.tasks, {Working, Finishing});
  }

  /** Every critical section of every goroutine keeps the invariant. */
  lemma StepKeepsInv(s: State, a: Action)
    requires Inv(s) && Enabled(s, a)
    ensures Inv(Apply(s, a))
  {
    hide Inv, Apply, In;
    match a
    case Go(t) => GoKeepsInv(s, t);
    case Done(t) => DoneKeepsInv(s, t);
    case Return(_) => FinishKeepsInv(s, a);
    case Unregister(_) => FinishKeepsInv(s, a);
    case _ => StopKeepsInv(s, a);
  }

  lemma NotIn(tasks: map<TaskId, Phase>, t: TaskId, phases: set<Phase>)
    requires t in tasks ==> tasks[t] !in phases
    ensures t !in In(tasks, phases)
  {
  }

  lemma IsIn(tasks: map<TaskId, Phase>, t: TaskId, phases: set<Phase>)
    requires t in tasks && tasks[t] in phases
    ensures t in In(tasks, phases)
  {
  }

  lemma InKeys(tasks: map<TaskId, Phase>, phases: set<Phase>)
    ensures In(tasks, phases) <= tasks.Keys
  {
  }

  lemma PhaseKept(tasks: map<TaskId, Phase>, t: TaskId, to: Phase, phases: set<Phase>)
    requires t in tasks && tasks[t] in phases && to in phases
    ensures In(tasks[t := to], phases) == In(tasks, phases)
  {
    PhaseChange(tasks, t, to, phases);
    IsIn(tasks, t, phases);
  }

  lemma {:induction false} RunKeepsInv(s: State, actions: seq<Action>)
    requires Inv(s) && Legal(s, actions)
    ensures Inv(After(s, actions))
    decreases |actions|
  {
    hide Inv;
    if actions != [] {
      StepKeepsInv(s, actions[0]);
      RunKeepsInv(Apply(s, actions[0]), actions[1..]);
    }
  }

  // ---------- what shutdown guarantees ----------

  /**
   * Over every interleaving the WaitGroup counts exactly the accepted tasks that have not passed
   * `Done`, so it is never negative and `Done` is only reached while it is positive.
   */
  lemma WaitCountExact(actions: seq<Action>)
    requires Legal(IDLE, actions)
    ensures var s := After(IDLE, actions);
            && s.wait == |Unfinished(s)|
            && (forall t :: Enabled(s, Done(t)) ==> s.wait > 0)
  {
    hide Legal, After;
    IdleInv();
    RunKeepsInv(IDLE, actions);
    var s := After(IDLE, actions);
    forall t | Enabled(s, Done(t)) ensures s.wait > 0 {
      assert t in Unfinished(s);
    }
  }

  lemma IdleInv()
    ensures Inv(IDLE)
  {
    assert Unfinished(IDLE) == {} && In(IDLE.tasks, {Working, Finishing}) == {};
  }

  /** After `stoped` is set no task is ever accepted again: the set of tasks is fixed and the count only falls. */
  lemma {:induction false} NoAddAfterStop(s: State, actions: seq<Action>)
    requires s.stopped && Legal(s, actions)
    ensures After(s, actions).stopped
    ensures After(s, actions).tasks.Keys == s.tasks.Keys
    ensures After(s, actions).wait <= s.wait
    decreases |actions|
  {
    if actions != [] {
      NoAddAfterStop(Apply(s, actions[0]), actions[1..]);
      var t := Apply(s, actions[0]);
      assert t.tasks.Keys == s.tasks.Keys;
    }
  }

  /** A Stop that left by the waited branch returns only after every accepted task has finished. */
  lemma WaitedStopMeansAllFinished(actions: seq<Action>, p: nat)
    requires Legal(IDLE, actions)
    requires p in After(IDLE, actions).stops && After(IDLE, actions).stops[p] == Returned(true)
    ensures var s := After(IDLE, actions); s.running == {} && forall t :: t in s.tasks ==> s.tasks[t] == Finished
  {
    hide Legal, After;
    IdleInv();
    RunKeepsInv(IDLE, actions);
    var s := After(IDLE, actions);
    assert Unfinished(s) == {};
    forall t | t in s.tasks ensures s.tasks[t] == Finished {
      assert t !in Unfinished(s);
    }
  }

  /**
   * Once any Stop has returned, whichever way it left, every accepted task is finished, or past the
   * map inside `finish`, or cancelled; and this stays so whatever happens next.
   */
  lemma ReturnedStopCoversAll(actions: seq<Action>, more: seq<Action>, p: nat)
    requires Legal(IDLE, actions) && Legal(After(IDLE, actions), more)
    requires p in After(IDLE, actions).stops && After(IDLE, actions).stops[p].Returned?
    ensures var s := After(After(IDLE, actions), more);
            && s.tasks.Keys == After(IDLE, actions).tasks.Keys
            && forall t :: t in s.tasks ==> s.tasks[t].Finished? || s.tasks[t].Unregistered? || t in s.cancelled
  {
    hide Legal, After;
    IdleInv();
    RunKeepsInv(IDLE, actions);
    var mid := After(IDLE, actions);
    RunKeepsInv(mid, more);
    NoAddAfterStop(mid, more);
    ReturnedStays(mid, more, p);
    var s := After(mid, more);
    forall t | t in s.tasks ensures s.tasks[t].Finished? || s.tasks[t].Unregistered? || t in s.cancelled {
      assert t !in s.running ==> s.tasks[t] !in {Working, Finishing};
    }
  }

  lemma {:induction false} ReturnedStays(s: State, actions: seq<Action>, p: nat)
    requires Legal(s, actions) && p in s.stops && s.stops[p].Returned?
    ensures p in After(s, actions).stops && After(s, actions).stops[p] == s.stops[p]
    decreases |actions|
  {
    if actions != [] {
      ReturnedStays(Apply(s, actions[0]), actions[1..], p);
    }
  }

  predicate LeftInFinish(s: State, p: nat, t: TaskId) {
    && p in s.stops && s.stops[p] == Returned(false)
    && t in s.tasks && s.tasks[t] != Finished && t !in s.cancelled
  }

  ghost predicate AllCovered(s: State) {
    forall t :: t in s.tasks ==> s.tasks[t].Finished? || t in s.cancelled
  }

  /**
   * Exactly when a Stop leaves nothing behind: its last step finds or makes every task finished or
   * cancelled if and only if no uncancelled task is past the map inside `finish`.
   */
  lemma StopCoversAllIff(s: State, p: nat)
    requires Inv(s) && Enabled(s, CancelRunning(p))
    ensures AllCovered(Apply(s, CancelRunning(p)))
       <==> forall t :: t in s.tasks && s.tasks[t].Unregistered? ==> t in s.cancelled
  {
    var u := Apply(s, CancelRunning(p));
    if AllCovered(u) {
      forall t | t in s.tasks && s.tasks[t].Unregistered? ensures t in s.cancelled {
        assert t in u.tasks && t !in s.running;
      }
    }
  }

  /** Leaving by timeout promises less: the task may still be inside `finish`, neither done nor cancelled. */
  lemma TimeoutMayLeaveTaskInFinish()
    ensures exists actions, p, t :: Legal(IDLE, actions) && LeftInFinish(After(IDLE, actions), p, t)
  {
    var a0, a1, a2, a3, a4, a5 := Go(0), BeginStop(0, true, 1), Return(0), Unregister(0), LeaveTimeout(0),
        CancelRunning(0);
    var s1 := Apply(IDLE, a0);
    var s2 := Apply(s1, a1);
    var s3 := Apply(s2, a2);
    var s4 := Apply(s3, a3);
    var s5 := Apply(s4, a4);
    var s6 := Apply(s5, a5);
    Chain(s5, a5, []);
    Chain(s4, a4, [a5]);
    Chain(s3, a3, [a4] + [a5]);
    Chain(s2, a2, [a3] + ([a4] + [a5]));
    Chain(s1, a1, [a2] + ([a3] + ([a4] + [a5])));
    Chain(IDLE, a0, [a1] + ([a2] + ([a3] + ([a4] + [a5]))));
    assert [a5] + [] == [a5];
    var actions := [a0] + ([a1] + ([a2] + ([a3] + ([a4] + [a5]))));
    assert After(IDLE, actions) == s6;
    assert LeftInFinish(s6, 0, 0);
  }

  lemma Chain(s: State, a: Action, rest: seq<Action>)
    requires Enabled(s, a) && Legal(Apply(s, a), rest)
    ensures Legal(s, [a] + rest) && After(s, [a] + rest) == After(Apply(s, a), rest)
  {
    assert ([a] + rest)[1..] == rest;
  }

  /**
   * Nothing blocks shutdown: from every reachable state the accepted tasks can all be finished by
   * steps of their own, after which a waiting Stop can leave by the waited branch.
   */
  lemma {:induction false} TasksCanDrain(s: State) returns (actions: seq<Action>)
    requires Inv(s)
    ensures Legal(s, actions) && After(s, actions).wait == 0 && After(s, actions).stops == s.stops
    decreases s.wait, |s.running|, |In(s.tasks, {Working})|
  {
    if Unfinished(s) == {} {
      actions := [];
    } else {
      var t :| t in Unfinished(s);
      var a := match s.tasks[t] case Working => Return(t) case Finishing => Unregister(t) case _ => Done(t);
      var next := Apply(s, a);
      StepKeepsInv(s, a);
      if a.Return? {
        PhaseChange(s.tasks, t, Finishing, {Working});
        assert In(next.tasks, {Working}) == In(s.tasks, {Working}) - {t};
        assert t in In(s.tasks, {Working});
      }
      var rest := TasksCanDrain(next);
      actions := [a] + rest;
      Chain(s, a, rest);
    }
  }

  lemma {:induction false} RunsJoin(s: State, first: seq<Action>, rest: seq<Action>)
    requires Legal(s, first) && Legal(After(s, first), rest)
    ensures Legal(s, first + rest) && After(s, first + rest) == After(After(s, first), rest)
    decreases |first|
  {
    if first == [] {
      assert first + rest == rest;
    } else {
      RunsJoin(Apply(s, first[0]), first[1..], rest);
      assert first + rest == [first[0]] + (first[1..] + rest);
      Chain(s, first[0], first[1..] + rest);
    }
  }

  /** The steps by which a waiting Stop returns once nothing is counted. */
  function WaitedSteps(p: nat): seq<Action> {
    [SeeZero(p), LeaveWaited(p), CancelRunning(p)]
  }

  lemma WaitedStepsReturn(s: State, p: nat)
    requires p in s.stops && s.stops[p] == Waiting(false) && s.wait == 0
    ensures Legal(s, WaitedSteps(p)) && After(s, WaitedSteps(p)).stops == s.stops[p := Returned(true)]
  {
    var s1 := Apply(s, SeeZero(p));
    var s2 := Apply(s1, LeaveWaited(p));
    Chain(s2, CancelRunning(p), []);
    Chain(s1, LeaveWaited(p), [CancelRunning(p)]);
    Chain(s, SeeZero(p), [LeaveWaited(p), CancelRunning(p)]);
    assert [LeaveWaited(p)] + [CancelRunning(p)] == [LeaveWaited(p), CancelRunning(p)];
    assert [SeeZero(p)] + [LeaveWaited(p), CancelRunning(p)] == WaitedSteps(p);
    assert [CancelRunning(p)] + [] == [CancelRunning(p)];
  }

  /** From every reachable state a waiting Stop can return by the waited branch, and at once by timeout. */
  lemma StopCanReturn(s: State, p: nat) returns (waited: seq<Action>)
    requires Inv(s) && p in s.stops && s.stops[p] == Waiting(false)
    ensures Legal(s, waited) && After(s, waited).stops == s.stops[p := Returned(true)]
    ensures Legal(s, [LeaveTimeout(p), CancelRunning(p)])
    ensures After(s, [LeaveTimeout(p), CancelRunning(p)]).stops == s.stops[p := Returned(false)]
  {
    var drain := TasksCanDrain(s);
    WaitedStepsReturn(After(s, drain), p);
    waited := drain + WaitedSteps(p);
    RunsJoin(s, drain, WaitedSteps(p));
    var late := Apply(s, LeaveTimeout(p));
    Chain(late, CancelRunning(p), []);
    Chain(s, LeaveTimeout(p), [CancelRunning(p)]);
    assert [CancelRunning(p)] + [] == [CancelRunning(p)];
    assert [LeaveTimeout(p)] + [CancelRunning(p)] == [LeaveTimeout(p), CancelRunning(p)];
  }
}
