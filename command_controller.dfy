/**
 The command controller: it takes a command line and a working directory,
 hands them to the command executor inside one trace step, and answers with
 the executor's result or with a result built from the exception it threw.
 Only a missing request body is refused; every other path answers OK.
 */
module Commands {
  import opened Wrappers
  import opened Tracing

  /** The request body. Either field may be null. */
  datatype CommandInput = CommandInput(command: Option<string>, dir: Option<string>)

  /** The response body. The CommandResult class is not part of this model: its
      `Output` field, and the defaults a field keeps when the controller does not
      set it (null for the strings, 0 for the exit code), are assumed, as for
      auto-properties without initializers. */
  datatype CommandResult = CommandResult(output: Option<string>, error: Option<string>, exitCode: int)

  /** An exception the executor throws: a command-line failure with its error
      text and exit code, or any other exception, known only by its text. */
  datatype Fault =
    | CommandLineException(error: Option<string>, exitCode: int)
    | OtherException(text: string)

  /** How a call of the executor ends: it returns a result or throws. */
  datatype ExecutorOutcome = Returned(result: CommandResult) | Threw(fault: Fault)

  datatype HttpStatus = OK | BadRequest

  /** A response: its status and the serialized body, if any. */
  datatype Response = Response(status: HttpStatus, body: Option<CommandResult>)

  /** The exit code reported for an exception other than a command-line failure. */
  const UnclassifiedExitCode: int := -1

  /** The response a missing request body gets. */
  const BadRequestResponse: Response := Response(BadRequest, None)

  const StepPrefix: string := "Executing "

  /** The step name: string concatenation reads a null command as empty. */
  function StepName(command: Option<string>): (r: string)
    ensures |r| >= |StepPrefix| && r[..|StepPrefix|] == StepPrefix
    ensures r[|StepPrefix|..] == (if command.Some? then command.value else "")
  {
    StepPrefix + (match command case None => "" case Some(c) => c)
  }

  /** The step tags: the working directory under "CWD"; the value may be null. */
  function StepTags(dir: Option<string>): (r: map<string, Option<string>>)
    ensures r.Keys == {"CWD"} && r["CWD"] == dir
  {
    map["CWD" := dir]
  }

  /** The try/catch of ExecuteCommand: the answer for each way the executor ends. */
  function ResponseFor(outcome: ExecutorOutcome): (r: Response)
    ensures r.status == OK && r.body.Some?
    ensures outcome.Returned? ==> r.body.value == outcome.result
    ensures outcome.Threw? && outcome.fault.CommandLineException? ==>
      r.body.value == CommandResult(None, outcome.fault.error, outcome.fault.exitCode)
    ensures outcome.Threw? && outcome.fault.OtherException? ==>
      r.body.value == CommandResult(None, Some(outcome.fault.text), UnclassifiedExitCode)
  {
    match outcome
    case Returned(result) => Response(OK, Some(result))
    case Threw(CommandLineException(error, exitCode)) => Response(OK, Some(CommandResult(None, error, exitCode)))
    case Threw(OtherException(text)) => Response(OK, Some(CommandResult(None, Some(text), UnclassifiedExitCode)))
  }

  /** What one execution writes to the tracer. */
  function StepTrace(input: CommandInput, outcome: ExecutorOutcome): seq<TraceEvent<Fault>> {
    [StepOpened(StepName(input.command), StepTags(input.dir))]
    + (if outcome.Threw? then [ErrorTraced(outcome.fault)] else [])
    + [StepClosed]
  }

  /** One step, opened first with the command's name and directory, closed last
      on every path; the exception is traced once, inside the step, exactly when
      the executor threw. */
  lemma StepTraceBracketed(input: CommandInput, outcome: ExecutorOutcome)
    ensures var t := StepTrace(input, outcome);
            |t| >= 2 &&
            t[0] == StepOpened(StepName(input.command), StepTags(input.dir)) &&
            t[|t| - 1] == StepClosed &&
            ProperlyNested(t) &&
            OpenCount(t) == 1 &&
            ErrorCount(t) == (if outcome.Threw? then 1 else 0) &&
            forall i :: 0 <= i < |t| && t[i].ErrorTraced? ==>
              0 < i < |t| - 1 && Depth(t[..i]) == 1 && t[i].error == outcome.fault
  {
    var t := StepTrace(input, outcome);
    var open := StepOpened(StepName(input.command), StepTags(input.dir));
    assert [open][..0] == [];
    assert Depth([open]) == 1;
    if outcome.Threw? {
      assert t == [open, ErrorTraced(outcome.fault), StepClosed];
      assert t[..1] == [open] && t[..2] == [open, ErrorTraced(outcome.fault)] && t[..3] == t;
      assert t[..2][..1] == [open] && t[..3][..2] == t[..2];
      assert OpenCount([open]) == 1 && OpenCount(t[..2]) == 1;
      assert ErrorCount([open]) == 0 && ErrorCount(t[..2]) == 1;
    } else {
      assert t == [open, StepClosed];
      assert t[..1] == [open] && t[..2] == t;
      assert OpenCount([open]) == 1 && ErrorCount([open]) == 0;
    }
    assert t[..0] == [];
  }

  /** The command executor's interface. What a real run does is not modelled:
      `run` stands for any behaviour, and `calls` records what it was asked. */
  class CommandExecutor {
    const run: (Option<string>, Option<string>) -> ExecutorOutcome
    var calls: seq<(Option<string>, Option<string>)>

    constructor (run: (Option<string>, Option<string>) -> ExecutorOutcome)
      ensures this.run == run && calls == []
    {
      this.run := run;
      calls := [];
    }

    method ExecuteCommand(command: Option<string>, workingDirectory: Option<string>) returns (outcome: ExecutorOutcome)
      modifies this
      ensures outcome == run(command, workingDirectory)
      ensures calls == old(calls) + [(command, workingDirectory)]
    {
      outcome := run(command, workingDirectory);
      calls := calls + [(command, workingDirectory)];
    }
  }

  class CommandController {
    const commandExecutor: CommandExecutor
    const tracer: Tracer<Fault>

    constructor (commandExecutor: CommandExecutor, tracer: Tracer<Fault>)
      ensures this.commandExecutor == commandExecutor && this.tracer == tracer
    {
      this.commandExecutor := commandExecutor;
      this.tracer := tracer;
    }

    /** ExecuteCommand. A missing body is refused before anything runs; any other
        input, whatever its command, is executed once, as given, inside one step. */
    method ExecuteCommand(input: Option<CommandInput>) returns (response: Response)
      modifies commandExecutor, tracer
      ensures input.None? ==>
        response == BadRequestResponse &&
        commandExecutor.calls == old(commandExecutor.calls) && tracer.log == old(tracer.log)
      ensures input.Some? ==>
        var outcome := commandExecutor.run(input.value.command, input.value.dir);
        response == ResponseFor(outcome) &&
        commandExecutor.calls == old(commandExecutor.calls) + [(input.value.command, input.value.dir)] &&
        tracer.log == old(tracer.log) + StepTrace(input.value, outcome)
      ensures response.status == BadRequest <==> input.None?
      // over a tracer shared by consecutive requests
      ensures ProperlyNested(old(tracer.log)) ==> ProperlyNested(tracer.log)
      ensures OpenCount(tracer.log) == OpenCount(old(tracer.log)) + (if input.Some? then 1 else 0)
      ensures ErrorCount(tracer.log) == ErrorCount(old(tracer.log)) +
        (if input.Some? && commandExecutor.run(input.value.command, input.value.dir).Threw? then 1 else 0)
    {
      if input.None? {
        return BadRequestResponse;
      }
      var command := input.value.command;
      var workingDirectory := input.value.dir;
      tracer.Step(StepName(command), StepTags(workingDirectory));
      var outcome := commandExecutor.ExecuteCommand(command, workingDirectory);
      if outcome.Threw? {
        tracer.TraceError(outcome.fault);
      }
      response := ResponseFor(outcome);
      tracer.CloseStep();
      StepTraceBracketed(input.value, outcome);
      CountsConcat(old(tracer.log), StepTrace(input.value, outcome));
      if ProperlyNested(old(tracer.log)) {
        NestedConcat(old(tracer.log), StepTrace(input.value, outcome));
      }
    }
  }
}
