/**
 * The generate -> execute -> route loop of the code-generation agent
 * (langgraph_agent.py). The language model and the sandboxed worker are
 * replaced by scripted outcomes, so what remains is a deterministic state
 * machine over the agent's state record.
 */
module Agent {
  import opened Wrappers

  /** A value bound by generated code; the worker hands back its local bindings. */
  datatype Value = IntValue(n: int) | StrValue(s: string) | OtherValue(repr: string)

  /** The worker's local variables after running a snippet, by name. */
  type Bindings = map<string, Value>

  /** The capability note that opens every prompt. */
  const Context: string :=
    "You can call assume_role_get_billing.list_service_usage(account_id) to "
    + "retrieve service and usage type costs for the previous month."

  /** The text of the request, before and after the task. */
  const Lead: string := "Write a short Python function to "
  const Trailer: string := ".\nYou have access to assume_role_get_billing.list_service_usage.\n"

  /** The error written when the worker outlives its time budget. */
  const TimeoutMessage: string := "Execution timed out"

  // ---------------------------------------------------------------------
  // Python truthiness of the two optional fields
  // ---------------------------------------------------------------------

  /** `output` is truthy: not None and a non-empty mapping. */
  predicate OutputSet(output: Option<Bindings>) {
    output.Some? && |output.value| > 0
  }

  /** `error` is truthy: not None and a non-empty string. */
  predicate ErrorSet(error: Option<string>) {
    error.Some? && |error.value| > 0
  }

  // ---------------------------------------------------------------------
  // Prompt construction
  // ---------------------------------------------------------------------

  function Request(task: string): string {
    Lead + task + Trailer
  }

  function Feedback(error: string): string {
    "\nPrevious error:\n" + error + "\nPlease correct it."
  }

  /** The message content sent to the generator for `task`, given the error left by the previous attempt. */
  function Prompt(task: string, error: Option<string>): string {
    Context + "\n" + Request(task) + (if ErrorSet(error) then Feedback(error.value) else "")
  }

  /** Every prompt opens with the capability note, a newline and the lead text. */
  lemma PromptLayout(task: string, error: Option<string>)
    ensures var p, n := Prompt(task, error), |Context| + 1 + |Lead|;
      && n + |task| + |Trailer| <= |p|
      && p[..|Context| + 1] == Context + "\n"
      && p[|Context| + 1..n] == Lead
  {
    Layout(Context, Lead, task, Trailer, if ErrorSet(error) then Feedback(error.value) else "");
  }

  /** Right after the lead text every prompt holds the task verbatim, then the trailer. */
  lemma PromptTaskSlot(task: string, error: Option<string>)
    ensures var p, n := Prompt(task, error), |Context| + 1 + |Lead|;
      && n + |task| + |Trailer| <= |p|
      && p[n..n + |task|] == task
      && p[n + |task|..n + |task| + |Trailer|] == Trailer
  {
    Layout(Context, Lead, task, Trailer, if ErrorSet(error) then Feedback(error.value) else "");
  }

  /** The layout of PromptLayout and PromptTaskSlot for any note, lead and trailer. */
  lemma Layout(note: string, lead: string, task: string, trailer: string, extra: string)
    ensures var p, n := note + "\n" + (lead + task + trailer) + extra, |note| + 1 + |lead|;
      && n + |task| + |trailer| <= |p|
      && p[..|note| + 1] == note + "\n"
      && p[|note| + 1..n] == lead
      && p[n..n + |task|] == task
      && p[n + |task|..n + |task| + |trailer|] == trailer
  {
    var p := note + "\n" + (lead + task + trailer) + extra;
    assert p == (note + "\n") + (lead + (task + (trailer + extra)));
  }

  /** The feedback paragraph is appended to the plain prompt exactly when the previous error is truthy. */
  lemma PromptFeedback(task: string, error: Option<string>)
    ensures var plain, p := Prompt(task, None), Prompt(task, error);
      && |plain| <= |p|
      && p[..|plain|] == plain
      && (ErrorSet(error) ==> p[|plain|..] == Feedback(error.value))
      && (!ErrorSet(error) ==> p == plain)
  {
    var plain := Prompt(task, None);
    assert plain == Context + "\n" + Request(task) + "";
  }

  /** Two prompts built with the same error carry the same task. */
  lemma PromptDeterminesTask(task1: string, task2: string, error: Option<string>)
    requires Prompt(task1, error) == Prompt(task2, error)
    ensures task1 == task2
  {
    PromptTaskSlot(task1, error);
    PromptTaskSlot(task2, error);
    var extra := if ErrorSet(error) then |Feedback(error.value)| else 0;
    assert |Prompt(task1, error)| == |Context| + 1 + |Lead| + |task1| + |Trailer| + extra;
    assert |Prompt(task2, error)| == |Context| + 1 + |Lead| + |task2| + |Trailer| + extra;
  }

  /** Two prompts for the same task agree on whether feedback was given, and on its error text. */
  lemma PromptDeterminesFeedback(task: string, error1: Option<string>, error2: Option<string>)
    requires Prompt(task, error1) == Prompt(task, error2)
    ensures ErrorSet(error1) <==> ErrorSet(error2)
    ensures ErrorSet(error1) ==> error1.value == error2.value
  {
    PromptFeedback(task, error1);
    PromptFeedback(task, error2);
    var plain := Prompt(task, None);
    if ErrorSet(error1) && ErrorSet(error2) {
      var f1, f2 := Feedback(error1.value), Feedback(error2.value);
      assert f1 == f2;
      assert |error1.value| == |error2.value|;
      assert f1[17..17 + |error1.value|] == error1.value;
      assert f2[17..17 + |error2.value|] == error2.value;
    }
  }

  // ---------------------------------------------------------------------
  // The agent's state and the scripted collaborators
  // ---------------------------------------------------------------------

  /** A value copy of the agent's state record. */
  datatype Snapshot = Snapshot(task: string, code: Option<string>, output: Option<Bindings>, error: Option<string>)

  /** The state the loop starts from: only the task is given. */
  function Initial(task: string): (s: Snapshot)
    ensures s.task == task && s.code.None? && s.output.None? && s.error.None?
  {
    Snapshot(task, None, None, None)
  }

  /** What the language model does with a prompt: a reply text, or a raised exception. */
  datatype GenReply = GenOk(text: string) | GenFault(msg: string)

  /** What the worker process reports when it finishes: its bindings, or the text of the exception it caught. */
  datatype WorkerResult = Ok(bindings: Bindings) | Fault(msg: string)

  /** What one execution attempt comes to: a finished worker, or one still alive at the deadline. */
  datatype ExecOutcome = Done(result: WorkerResult) | Timeout

  /** The state after a generation step whose model call returned `text`. */
  function Generated(s: Snapshot, text: string): (t: Snapshot)
    ensures t.code == Some(text) && t.error == None
    ensures t.task == s.task && t.output == s.output
  {
    s.(code := Some(text), error := None)
  }

  /** The snippet an execution step runs: the stored code, or the empty program when there is none. */
  function CodeToRun(code: Option<string>): (ran: string)
    ensures code.None? ==> ran == ""
    ensures code.Some? ==> ran == code.value
  {
    match code
    case None => ""
    case Some(c) => c
  }

  /** The state after an execution step: exactly one of `output` and `error` is written. */
  function Executed(s: Snapshot, outcome: ExecOutcome): (t: Snapshot)
    ensures t.task == s.task && t.code == s.code
    ensures match outcome
      case Timeout => t.error == Some(TimeoutMessage) && t.output == s.output
      case Done(Ok(b)) => t.output == Some(b) && t.error == s.error
      case Done(Fault(m)) => t.error == Some(m) && t.output == s.output
  {
    match outcome
    case Timeout => s.(error := Some(TimeoutMessage))
    case Done(Ok(b)) => s.(output := Some(b))
    case Done(Fault(m)) => s.(error := Some(m))
  }

  /** Where the graph goes after an execution step. */
  datatype Node = Generate | End

  function Route(s: Snapshot): (next: Node)
    ensures next == End <==> s.output.Some? && s.output.value != map[] && (s.error.None? || s.error.value == "")
  {
    if OutputSet(s.output) && !ErrorSet(s.error) then End else Generate
  }

  /** An execution outcome that ends the loop: a finished worker with non-empty bindings. */
  predicate Succeeds(outcome: ExecOutcome) {
    outcome.Done? && outcome.result.Ok? && |outcome.result.bindings| > 0
  }

  /** One generate-then-execute step, taken while `output` is still unset, ends the loop exactly on a success. */
  lemma RouteAfterStep(s: Snapshot, text: string, outcome: ExecOutcome)
    requires !OutputSet(s.output)
    ensures var t := Executed(Generated(s, text), outcome);
      && (Route(t) == End <==> Succeeds(outcome))
      && !(OutputSet(t.output) && ErrorSet(t.error))
      && (Route(t) == Generate ==> !OutputSet(t.output))
  {
  }

  // ---------------------------------------------------------------------
  // The state record, updated in place
  // ---------------------------------------------------------------------

  class CodeState {
    var task: string
    var code: Option<string>
    var output: Option<Bindings>
    var error: Option<string>

    constructor (task: string)
      ensures View() == Initial(task)
    {
      this.task := task;
      code := None;
      output := None;
      error := None;
    }

    /** The current field values. */
    function View(): Snapshot
      reads this
    {
      Snapshot(task, code, output, error)
    }

    /**
     * One generation step. Returns the prompt sent to the model and, when
     * the model call raised, the exception's message; in that case no field
     * has been written.
     */
    method GenerateCode(reply: GenReply) returns (prompt: string, fault: Option<string>)
      modifies this
      ensures prompt == Prompt(old(task), old(error))
      ensures fault == if reply.GenFault? then Some(reply.msg) else None
      ensures View() == if reply.GenOk? then Generated(old(View()), reply.text) else old(View())
    {
      prompt := Prompt(task, error);
      match reply
      case GenFault(msg) =>
        fault := Some(msg);
      case GenOk(text) =>
        code := Some(text);
        error := None;
        fault := None;
    }

    /** One execution step. Returns the snippet handed to the worker. */
    method ExecuteCode(outcome: ExecOutcome) returns (ran: string)
      modifies this
      ensures ran == CodeToRun(old(code))
      ensures View() == Executed(old(View()), outcome)
    {
      ran := CodeToRun(code);
      match outcome
      case Timeout =>
        error := Some(TimeoutMessage);
      case Done(Ok(b)) =>
        output := Some(b);
      case Done(Fault(m)) =>
        error := Some(m);
    }
  }

  // ---------------------------------------------------------------------
  // The compiled graph, driven by a finite script
  // ---------------------------------------------------------------------

  /** The scripted replies for one loop iteration; `exec` is not consumed when generation raises. */
  datatype Attempt = Attempt(gen: GenReply, exec: ExecOutcome)

  /** A call made to one of the two collaborators. */
  datatype Call = GenerateCall(prompt: string) | ExecuteCall(code: string)

  /** Why the loop stopped: the route reached END, generation raised, or the script ran out. */
  datatype Stop = Finished | Aborted(msg: string) | Exhausted

  datatype Run = Run(stop: Stop, final: Snapshot, calls: seq<Call>)

  /** `rest` with the calls `calls` made before it. */
  function After(calls: seq<Call>, rest: Run): Run {
    Run(rest.stop, rest.final, calls + rest.calls)
  }

  lemma AfterAfter(first: seq<Call>, second: seq<Call>, r: Run)
    ensures After(first, After(second, r)) == After(first + second, r)
  {
    assert first + (second + r.calls) == (first + second) + r.calls;
  }

  /** The loop from state `s`, one attempt of `script` per iteration. */
  function Drive(s: Snapshot, script: seq<Attempt>): Run
    decreases |script|
  {
    if script == [] then Run(Exhausted, s, [])
    else
      var prompt := Prompt(s.task, s.error);
      match script[0].gen
      case GenFault(msg) => Run(Aborted(msg), s, [GenerateCall(prompt)])
      case GenOk(text) =>
        var g := Generated(s, text);
        var e := Executed(g, script[0].exec);
        var calls := [GenerateCall(prompt), ExecuteCall(CodeToRun(g.code))];
        if Route(e) == End then Run(Finished, e, calls)
        else After(calls, Drive(e, script[1..]))
  }

  /** One iteration of the loop, taken at position `i` of the script. */
  lemma DriveFirst(s: Snapshot, script: seq<Attempt>, i: nat)
    requires i < |script|
    ensures script[i].gen.GenFault? ==>
      Drive(s, script[i..]) == Run(Aborted(script[i].gen.msg), s, [GenerateCall(Prompt(s.task, s.error))])
    ensures script[i].gen.GenOk? ==>
      var e := Executed(Generated(s, script[i].gen.text), script[i].exec);
      var calls := [GenerateCall(Prompt(s.task, s.error)), ExecuteCall(script[i].gen.text)];
      Drive(s, script[i..]) == if Route(e) == End then Run(Finished, e, calls) else After(calls, Drive(e, script[i + 1..]))
  {
    assert script[i..][0] == script[i] && script[i..][1..] == script[i + 1..];
  }

  /** `app.invoke(CodeState(task=task))`: the graph run on a fresh state object. */
  method Invoke(task: string, script: seq<Attempt>) returns (r: Run)
    ensures r == Drive(Initial(task), script)
  {
    var state := new CodeState(task);
    var calls: seq<Call> := [];
    var i := 0;
    while i < |script|
      invariant i <= |script|
      invariant Drive(Initial(task), script) == After(calls, Drive(state.View(), script[i..]))
      decreases |script| - i
    {
      ghost var s := state.View();
      ghost var prior := calls;
      DriveFirst(s, script, i);
      var prompt, fault := state.GenerateCode(script[i].gen);
      calls := calls + [GenerateCall(prompt)];
      if fault.Some? {
        r := Run(Aborted(fault.value), state.View(), calls);
        return;
      }
      var ran := state.ExecuteCode(script[i].exec);
      assert calls + [ExecuteCall(ran)] == prior + [GenerateCall(prompt), ExecuteCall(ran)];
      AfterAfter(prior, [GenerateCall(prompt), ExecuteCall(ran)], Drive(state.View(), script[i + 1..]));
      calls := calls + [ExecuteCall(ran)];
      i := i + 1;
      if Route(state.View()) == End {
        r := Run(Finished, state.View(), calls);
        return;
      }
    }
    r := Run(Exhausted, state.View(), calls);
  }

  // ---------------------------------------------------------------------
  // Properties of the loop
  // ---------------------------------------------------------------------

  lemma ParityShift(k: int)
    requires k >= 2
    ensures (k - 2) % 2 == k % 2
  {
  }

  /** Even positions hold generate calls, odd positions execute calls. */
  predicate Alternating(calls: seq<Call>) {
    forall k :: 0 <= k < |calls| ==> (calls[k].GenerateCall? <==> k % 2 == 0)
  }

  /** One generate-execute pair in front of an alternating sequence keeps it alternating. */
  lemma PairThenAlternating(prompt: string, code: string, rest: seq<Call>)
    requires Alternating(rest)
    ensures Alternating([GenerateCall(prompt), ExecuteCall(code)] + rest)
    ensures |[GenerateCall(prompt), ExecuteCall(code)] + rest| % 2 == |rest| % 2
  {
    var calls := [GenerateCall(prompt), ExecuteCall(code)] + rest;
    forall k | 2 <= k < |calls|
      ensures calls[k].GenerateCall? <==> k % 2 == 0
    {
      assert calls[k] == rest[k - 2];
      ParityShift(k);
    }
    ParityShift(|calls|);
  }

  /** Calls alternate generate, execute, generate, ...; only an aborted run ends on a generate call. */
  lemma {:induction false} DriveAlternates(s: Snapshot, script: seq<Attempt>)
    decreases |script|
    ensures var r := Drive(s, script);
      && |r.calls| <= 2 * |script|
      && Alternating(r.calls)
      && (r.stop.Aborted? <==> |r.calls| % 2 == 1)
      && (r.stop.Exhausted? ==> |r.calls| == 2 * |script|)
  {
    if script != [] && script[0].gen.GenOk? {
      var e := Executed(Generated(s, script[0].gen.text), script[0].exec);
      if Route(e) == Generate {
        DriveAlternates(e, script[1..]);
        PairThenAlternating(Prompt(s.task, s.error), script[0].gen.text, Drive(e, script[1..]).calls);
      }
    }
  }

  /**
   * Started with `output` unset, the loop ends successfully exactly when
   * `output` is truthy, and then `error` is None; `output` and `error` are
   * never both truthy at the end.
   */
  lemma {:induction false} DriveKeepsExclusive(s: Snapshot, script: seq<Attempt>)
    requires !OutputSet(s.output)
    decreases |script|
    ensures var r := Drive(s, script);
      && r.final.task == s.task
      && (r.stop == Finished <==> OutputSet(r.final.output))
      && (r.stop == Finished ==> r.final.error == None)
      && !(OutputSet(r.final.output) && ErrorSet(r.final.error))
  {
    if script != [] && script[0].gen.GenOk? {
      var e := Executed(Generated(s, script[0].gen.text), script[0].exec);
      RouteAfterStep(s, script[0].gen.text, script[0].exec);
      if Route(e) == Generate {
        DriveKeepsExclusive(e, script[1..]);
      }
    }
  }

  /** An attempt after which the loop goes round again: generation succeeded, execution did not. */
  predicate Retries(a: Attempt) {
    a.gen.GenOk? && !Succeeds(a.exec)
  }

  /**
   * The loop stops right after the first execution with non-empty bindings:
   * one generate and one execute per attempt up to it, and nothing of the
   * script after it is consumed.
   */
  lemma {:induction false} StopsAtFirstSuccess(s: Snapshot, prefix: seq<Attempt>, text: string, b: Bindings, suffix: seq<Attempt>)
    requires !OutputSet(s.output)
    requires forall k :: 0 <= k < |prefix| ==> Retries(prefix[k])
    requires |b| > 0
    decreases |prefix|
    ensures var hit := Attempt(GenOk(text), Done(Ok(b)));
      var r := Drive(s, prefix + [hit] + suffix);
      && r == Drive(s, prefix + [hit])
      && r.stop == Finished
      && |r.calls| == 2 * |prefix| + 2
      && r.final == Snapshot(s.task, Some(text), Some(b), None)
  {
    var hit := Attempt(GenOk(text), Done(Ok(b)));
    if prefix == [] {
      assert prefix + [hit] + suffix == [hit] + suffix;
      assert prefix + [hit] == [hit];
    } else {
      var a := prefix[0];
      var e := Executed(Generated(s, a.gen.text), a.exec);
      RouteAfterStep(s, a.gen.text, a.exec);
      assert (prefix + [hit] + suffix)[0] == a && (prefix + [hit])[0] == a;
      assert (prefix + [hit] + suffix)[1..] == prefix[1..] + [hit] + suffix;
      assert (prefix + [hit])[1..] == prefix[1..] + [hit];
      StopsAtFirstSuccess(e, prefix[1..], text, b, suffix);
    }
  }

  /** Conversely, a finished run stopped at the first attempt that succeeded; all before it retried. */
  lemma {:induction false} FinishedAtFirstSuccess(s: Snapshot, script: seq<Attempt>)
    requires !OutputSet(s.output)
    requires Drive(s, script).stop == Finished
    decreases |script|
    ensures var n := |Drive(s, script).calls| / 2;
      && 1 <= n <= |script|
      && script[n - 1].gen.GenOk? && Succeeds(script[n - 1].exec)
      && forall k :: 0 <= k < n - 1 ==> Retries(script[k])
  {
    var a := script[0];
    var e := Executed(Generated(s, a.gen.text), a.exec);
    RouteAfterStep(s, a.gen.text, a.exec);
    if Route(e) == Generate {
      FinishedAtFirstSuccess(e, script[1..]);
      var m := |Drive(e, script[1..]).calls| / 2;
      assert |Drive(s, script).calls| == 2 + |Drive(e, script[1..]).calls|;
      assert |Drive(s, script).calls| / 2 == m + 1;
      forall k | 0 <= k < m
        ensures Retries(script[k])
      {
        if k > 0 {
          assert script[k] == script[1..][k - 1];
        }
      }
    }
  }

  /** A failing attempt followed by a succeeding one: exactly two executions, the second prompt carrying the error. */
  lemma FaultThenSuccess(task: string, first: string, msg: string, second: string, b: Bindings, rest: seq<Attempt>)
    requires |b| > 0
    ensures Drive(Initial(task), [Attempt(GenOk(first), Done(Fault(msg))), Attempt(GenOk(second), Done(Ok(b)))] + rest)
      == Run(Finished, Snapshot(task, Some(second), Some(b), None),
             [GenerateCall(Prompt(task, None)), ExecuteCall(first),
              GenerateCall(Prompt(task, Some(msg))), ExecuteCall(second)])
  {
    var script := [Attempt(GenOk(first), Done(Fault(msg))), Attempt(GenOk(second), Done(Ok(b)))] + rest;
    assert script[1..][0] == Attempt(GenOk(second), Done(Ok(b)));
  }

  /** A run that finishes with empty bindings loops again, and the next prompt carries no feedback. */
  lemma EmptyBindingsRetryWithoutFeedback(s: Snapshot, text: string, next: Attempt, rest: seq<Attempt>)
    ensures var r := Drive(s, [Attempt(GenOk(text), Done(Ok(map[])))] + [next] + rest);
      && |r.calls| >= 3
      && r.calls[2] == GenerateCall(Prompt(s.task, None))
  {
    var script := [Attempt(GenOk(text), Done(Ok(map[])))] + [next] + rest;
    var e := Executed(Generated(s, text), Done(Ok(map[])));
    assert script[1..] == [next] + rest;
    DriveAlternates(e, script[1..]);
  }

  /** A generator fault stops the loop at once: no execution, no field written. */
  lemma GenerationFaultAborts(s: Snapshot, msg: string, exec: ExecOutcome, rest: seq<Attempt>)
    ensures Drive(s, [Attempt(GenFault(msg), exec)] + rest)
      == Run(Aborted(msg), s, [GenerateCall(Prompt(s.task, s.error))])
  {
  }
}
