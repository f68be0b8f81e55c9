/** What an instruction's event log says about the instruction, over all serial runs of the saga. */
module InstructionLog {
  import opened Wrappers
  import opened Saga
  import opened SagaSafety
  import opened SagaTheorems
  import IL = InstructionLifecycle

  ghost predicate InstructionAgrees(s: State, id: string) {
    id in s.instructions ==> IL.AgreesWithLog(s.instructions[id].content, s.instructions[id].version)
  }

  ghost predicate LogsAgree(s: State) {
    forall id: string {:trigger InstructionAgrees(s, id)} :: InstructionAgrees(s, id)
  }

  lemma {:induction false} StepKeepsLog(s: State, a: Action, id: string)
    requires Inv(s) && LogsAgree(s)
    ensures InstructionAgrees(Step(s, a, true), id)
  {
    assert InstructionAgrees(s, id);
    if id in s.instructions {
      InstructionRowAfter(s, a, true, id);
      if WritesInstruction(s, a, true, id) {
        var c := s.instructionCalls[a.call];
        assert InstructionCallOk(s, c);
        IL.ApplyAgreesWithLog(c.instruction, c.op, c.who, a.now, c.version);
      }
    } else if a.CreateInstruction? {
      IL.NewAgreesWithLog(a.route, a.who, a.now);
    } else if !a.WriteInstruction? {
      InstructionsUntouched(s, a, true);
    }
  }

  lemma {:induction false} RunKeepsLogs(s: State, actions: seq<Action>)
    requires Inv(s) && LogsAgree(s)
    ensures LogsAgree(Run(s, actions, true))
    decreases |actions|
  {
    if actions != [] {
      StepKeepsInv(s, actions[0]);
      forall id: string ensures InstructionAgrees(Step(s, actions[0], true), id) { StepKeepsLog(s, actions[0], id); }
      RunKeepsLogs(Step(s, actions[0], true), actions[1..]);
    }
  }

  /** In every serial run, interleaved as it may be, each instruction is what its log says. */
  lemma {:induction false} InstructionLogsReplay(s: State, id: string)
    requires Reachable(s) && id in s.instructions
    ensures IL.AgreesWithLog(s.instructions[id].content, s.instructions[id].version)
  {
    var actions :| s == Run(START, actions, true);
    RunKeepsLogs(START, actions);
    assert InstructionAgrees(s, id);
  }

  /** A held SINGLE_USE instruction has been used once. */
  lemma {:induction false} HeldIsUsedOnce(s: State, id: string, p: string)
    requires Reachable(s) && IsSingleUse(s, id) && HeldBy(s, id, p)
    ensures s.instructions[id].content.usageCount == 1
  {
    InstructionLogsReplay(s, id);
  }
}
