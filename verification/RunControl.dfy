/** `step` and bounded `run`: however a run is split into control calls, the kernel makes the same dispatches. */
module RunControl {
  import opened Outcomes
  import opened Scheduler
  import opened KernelModel
  import opened KernelTheorems

  datatype Status = READY | PAUSED | RUNNING | COMPLETED | FAILED

  datatype Simulation = Simulation(kernel: Kernel, status: Status)

  datatype Control = Step | Run(max: nat)

  predicate Terminal(k: Kernel) {
    k.failure.Some? || k.completed
  }

  /** The status after kernel work: terminal states win over the one the control call set. */
  function StatusAfter(k: Kernel, status: Status): Status {
    if k.failure.Some? then FAILED else if k.completed then COMPLETED else status
  }

  ghost function StepOnce(s: Simulation, env: Env): Simulation {
    if s.status == FAILED || s.status == COMPLETED then s
    else var k := Dispatch(s.kernel, env); Simulation(k, StatusAfter(k, Status.PAUSED))
  }

  /** The dispatch loop of `run`: at most `left` more events. */
  ghost function RunLoop(k: Kernel, env: Env, left: nat): Kernel
    decreases left
  {
    if left == 0 || Terminal(k) then k else RunLoop(Dispatch(k, env), env, left - 1)
  }

  /** `run({ maxEvents })`: a boundary check, then the loop; a run that is still going is paused. */
  ghost function RunBounded(s: Simulation, env: Env, max: nat): Simulation {
    if s.status == FAILED || s.status == COMPLETED then s
    else var k := RunLoop(Boundary(s.kernel), env, max); Simulation(k, StatusAfter(k, Status.PAUSED))
  }

  ghost function Apply(s: Simulation, control: Control, env: Env): Simulation {
    match control
    case Step => StepOnce(s, env)
    case Run(max) => RunBounded(s, env, max)
  }

  ghost function Perform(s: Simulation, controls: seq<Control>, env: Env): Simulation
    decreases |controls|
  {
    if controls == [] then s else Perform(Apply(s, controls[0], env), controls[1..], env)
  }

  /** The status tells exactly whether the kernel is terminal. */
  ghost predicate Consistent(s: Simulation) {
    (s.status == FAILED <==> s.kernel.failure.Some?)
        && (s.status == COMPLETED <==> s.kernel.failure.None? && s.kernel.completed)
  }

  lemma {:induction false} IterateInTwo(k: Kernel, env: Env, a: nat, b: nat)
    ensures Iterate(Iterate(k, env, a), env, b) == Iterate(k, env, a + b)
    decreases a
  {
    hide Dispatch;
    if a > 0 && !Terminal(k) { IterateInTwo(Dispatch(k, env), env, a - 1, b); }
  }

  lemma {:induction false} LoopIsIterate(k: Kernel, env: Env, left: nat)
    ensures RunLoop(k, env, left) == Iterate(k, env, left)
    decreases left
  {
    hide Dispatch;
    if left > 0 && !Terminal(k) { LoopIsIterate(Dispatch(k, env), env, left - 1); }
  }

  /** How many dispatches a control call asks for. */
  function Asked(control: Control): nat {
    match control
    case Step => 1
    case Run(max) => max
  }

  /** One control call makes as many dispatches as it asks for, unless the run ends before. */
  lemma ControlIsDispatches(s: Simulation, control: Control, env: Env) returns (n: nat)
    requires Consistent(s)
    ensures Apply(s, control, env).kernel == Iterate(s.kernel, env, n)
    ensures n == Asked(control) || Terminal(Apply(s, control, env).kernel)
    ensures Consistent(Apply(s, control, env))
  {
    n := 0;
    if s.status != FAILED && s.status != COMPLETED {
      match control
      case Step =>
        n := 1;
        assert Iterate(Dispatch(s.kernel, env), env, 0) == Dispatch(s.kernel, env);
      case Run(max) =>
        LoopIsIterate(Boundary(s.kernel), env, max);
        if s.kernel.pending == {} {
          n := 1;
          assert Dispatch(s.kernel, env) == Boundary(s.kernel);
          assert Terminal(Boundary(s.kernel));
        } else {
          n := max;
        }
    }
  }

  function AskedInAll(controls: seq<Control>): nat
    decreases |controls|
  {
    if controls == [] then 0 else Asked(controls[0]) + AskedInAll(controls[1..])
  }

  /** Control calls together make as many dispatches as they ask for, unless the run ends before. */
  lemma {:induction false} ControlsAreDispatches(s: Simulation, controls: seq<Control>, env: Env) returns (n: nat)
    requires Consistent(s)
    ensures Perform(s, controls, env).kernel == Iterate(s.kernel, env, n)
    ensures n == AskedInAll(controls) || Terminal(Perform(s, controls, env).kernel)
    ensures Consistent(Perform(s, controls, env))
    decreases |controls|
  {
    hide Dispatch, Apply, Iterate;
    if controls == [] {
      n := 0;
      assert Iterate(s.kernel, env, 0) == s.kernel by { NoDispatch(s.kernel, env); }
    } else {
      var first := ControlIsDispatches(s, controls[0], env);
      var rest := ControlsAreDispatches(Apply(s, controls[0], env), controls[1..], env);
      IterateInTwo(s.kernel, env, first, rest);
      if Terminal(Apply(s, controls[0], env).kernel) { TerminalStays(Apply(s, controls[0], env).kernel, env, rest); }
      n := first + rest;
    }
  }

  lemma NoDispatch(k: Kernel, env: Env)
    ensures Iterate(k, env, 0) == k
  {}

  lemma TerminalStays(k: Kernel, env: Env, n: nat)
    requires Terminal(k)
    ensures Iterate(k, env, n) == k
  {}

  /**
   * Any two ways of splitting a run agree: once both have ended, the whole state and history are the same, and before
   * that the longer one continues from exactly where the shorter one stands.
   */
  lemma SplittingDoesNotMatter(s: Simulation, first: seq<Control>, second: seq<Control>, env: Env) returns (n: nat)
    requires Consistent(s)
    ensures var a := Perform(s, first, env).kernel;
            var b := Perform(s, second, env).kernel;
            && (b == Iterate(a, env, n) || a == Iterate(b, env, n))
            && (Terminal(a) && Terminal(b) ==> a == b)
  {
    hide Perform, Dispatch, Iterate;
    var i := ControlsAreDispatches(s, first, env);
    var j := ControlsAreDispatches(s, second, env);
    var a := Perform(s, first, env).kernel;
    var b := Perform(s, second, env).kernel;
    if i <= j {
      n := j - i;
      IterateInTwo(s.kernel, env, i, n);
      if Terminal(a) { TerminalStays(a, env, n); }
    } else {
      n := i - j;
      IterateInTwo(s.kernel, env, j, n);
      if Terminal(b) { TerminalStays(b, env, n); }
    }
  }
}
