/** One command: its state machine on the server, and the messages its execution sends from the client. */
module Commands {
  import opened Wrappers
  import opened Lines

  datatype Status =
    | Pending | Validating | InvalidSignature | Starting | StartedExecution
    | KilledExecution | FailedExecution | FinishedExecution
    | FlushedLogs | Failed | FailedValidation | Finished
    | Other(name: string)

  datatype Rule = Rule(mustContain: bool, outputStream: int, text: string)

  type Templates = map<string, seq<Rule>>

  /** What the command consults outside itself: whether this process is a server, the rules of each stored
      template, and the requests that have a coordinator entry. */
  datatype Context = Context(serverEnabled: bool, templates: Templates, active: set<string>) {
    function RulesOf(templateId: string): Option<seq<Rule>> {
      if serverEnabled && templateId in templates then Some(templates[templateId]) else None
    }
  }

  function Stream(rule: Rule, output: seq<string>, errors: seq<string>): seq<string> {
    if rule.outputStream == 1 then output else errors
  }

  ghost predicate RuleHolds(rule: Rule, output: seq<string>, errors: seq<string>) {
    MatchesSomeLine(Stream(rule, output, errors), rule.text) == rule.mustContain
  }

  datatype Verdict = Unjudged | Rejected | Accepted

  /** The outcome of validating recorded output; `None` stands for "no rules to be found". */
  ghost function Judge(rules: Option<seq<Rule>>, output: seq<string>, errors: seq<string>): Verdict {
    if rules.None? then Unjudged
    else if forall rule :: rule in rules.value ==> RuleHolds(rule, output, errors) then Accepted
    else Rejected
  }

  /** Whether a message arriving in a state makes the server validate the output. */
  predicate TriggersValidation(oldStatus: Status, message: Status) {
    oldStatus == FinishedExecution && message == FlushedLogs
  }

  /** The state a command ends up in when a message arrives and validation has the given verdict. */
  function Settle(oldStatus: Status, message: Status, verdict: Verdict): Status {
    if TriggersValidation(oldStatus, message) then
      match verdict
      case Unjudged => FlushedLogs
      case Rejected => FailedValidation
      case Accepted => Finished
    else if oldStatus == FailedExecution && message == FlushedLogs then Failed
    else message
  }

  datatype Message = State(status: Status) | Logs(output: seq<string>, errors: seq<string>)

  /** How running the script ended. */
  datatype Outcome = NotStarted | KillRefused | Killed | Exited(error: Option<string>)

  // ---------- what a list of sent messages says ----------

  function Statuses(messages: seq<Message>): seq<Status> {
    if messages == [] then []
    else if messages[|messages| - 1].State?
    then Statuses(messages[..|messages| - 1]) + [messages[|messages| - 1].status]
    else Statuses(messages[..|messages| - 1])
  }

  function Output(messages: seq<Message>): seq<string> {
    if messages == [] then []
    else if messages[|messages| - 1].Logs?
    then Output(messages[..|messages| - 1]) + messages[|messages| - 1].output
    else Output(messages[..|messages| - 1])
  }

  function Errors(messages: seq<Message>): seq<string> {
    if messages == [] then []
    else if messages[|messages| - 1].Logs?
    then Errors(messages[..|messages| - 1]) + messages[|messages| - 1].errors
    else Errors(messages[..|messages| - 1])
  }

  /** No posted chunk carries more than eleven lines of either stream. */
  ghost predicate SmallChunks(messages: seq<Message>) {
    forall i :: 0 <= i < |messages| && messages[i].Logs? ==>
      |messages[i].output| <= 11 && |messages[i].errors| <= 11
  }

  lemma Appended(messages: seq<Message>, message: Message)
    ensures Statuses(messages + [message]) == Statuses(messages) + (if message.State? then [message.status] else [])
    ensures Output(messages + [message]) == Output(messages) + (if message.Logs? then message.output else [])
    ensures Errors(messages + [message]) == Errors(messages) + (if message.Logs? then message.errors else [])
  {
    var all := messages + [message];
    assert all[..|all| - 1] == messages;
  }

  // ---------- the messages of one execution ----------

  /** The keyed hash of a command's text and id, as a function of the client's token. */
  type Mac = (string, string, string) -> string

  function StatusScript(outcome: Outcome): seq<Status> {
    match outcome
    case NotStarted => [Validating, Starting, FailedExecution]
    case KillRefused => [Validating, Starting, StartedExecution]
    case Killed => [Validating, Starting, StartedExecution, KilledExecution, FlushedLogs]
    case Exited(None) => [Validating, Starting, StartedExecution, FinishedExecution, FlushedLogs]
    case Exited(Some(_)) => [Validating, Starting, StartedExecution, FailedExecution, FlushedLogs]
  }

  function OutputScript(outcome: Outcome, stdout: string): seq<string> {
    if outcome.NotStarted? || outcome.KillRefused? then [] else Split(stdout)
  }

  function ErrorScript(outcome: Outcome, stderr: string): seq<string> {
    if outcome.NotStarted? || outcome.KillRefused? then []
    else if outcome.Exited? && outcome.error.Some? then [outcome.error.value] + Split(stderr)
    else Split(stderr)
  }

  /** The state a command is left in by an execution, given the verdict on its output. */
  function Ending(outcome: Outcome, verdict: Verdict): Status {
    match outcome
    case NotStarted => FailedExecution
    case KillRefused => StartedExecution
    case Killed => FlushedLogs
    case Exited(Some(_)) => Failed
    case Exited(None) =>
      match verdict
      case Unjudged => FlushedLogs
      case Rejected => FailedValidation
      case Accepted => Finished
  }

  /** The messages a signed command sends when its script runs and ends as `outcome` says. Where the log
      chunks are cut is left open; that nothing follows the final `flushed_logs` is not. */
  ghost predicate EmittedBy(messages: seq<Message>, outcome: Outcome, stdout: string, stderr: string) {
    && Statuses(messages) == StatusScript(outcome)
    && Output(messages) == OutputScript(outcome, stdout)
    && Errors(messages) == ErrorScript(outcome, stderr)
    && |messages| > 0
    && (!outcome.NotStarted? && !outcome.KillRefused? ==> messages[|messages| - 1] == State(FlushedLogs))
  }

  class Cmd {
    const id: string
    const command: string
    const timeout: int
    const clientId: string
    const templateId: string
    const consensusRequestId: string
    const requestUserId: string
    // Empty for a command that is local to this process.
    const signature: string
    const created: int
    const executionIterationId: nat
    var pending: bool
    var state: Status
    var bufOutput: seq<string>
    var bufOutputErr: seq<string>
    // The requests this command made to the server, in order.
    var sent: seq<Message>

    constructor (id: string, command: string, timeout: int, clientId: string, templateId: string,
                 consensusRequestId: string, requestUserId: string, signature: string, created: int,
                 executionIterationId: nat)
      ensures this.id == id && this.command == command && this.timeout == timeout && this.clientId == clientId
      ensures this.templateId == templateId && this.consensusRequestId == consensusRequestId
      ensures this.requestUserId == requestUserId && this.signature == signature && this.created == created
      ensures this.executionIterationId == executionIterationId
      ensures pending && state == Pending && bufOutput == [] && bufOutputErr == [] && sent == []
    {
      this.id, this.command, this.timeout, this.clientId := id, command, timeout, clientId;
      this.templateId, this.consensusRequestId := templateId, consensusRequestId;
      this.requestUserId, this.signature, this.created := requestUserId, signature, created;
      this.executionIterationId := executionIterationId;
      pending, state, bufOutput, bufOutputErr, sent := true, Pending, [], [], [];
    }

    predicate Signed() {
      |signature| > 0
    }

    function ComputeHmac(mac: Mac, token: string): string {
      mac(token, command, id)
    }

    /** `next` reports whether a call of the coordinator's Next was spawned. */
    method SetState(message: Status, context: Context) returns (next: bool)
      modifies this`state
      ensures state == Settle(old(state), message, Judge(context.RulesOf(templateId), bufOutput, bufOutputErr))
      ensures next <==> TriggersValidation(old(state), message) && state == Finished
                        && consensusRequestId in context.active
      decreases if TriggersValidation(state, message) then 2 else 0
    {
      var oldState := state;
      state := message;
      next := false;
      if oldState == FinishedExecution && state == FlushedLogs {
        next := Validate(context);
      } else if oldState == FailedExecution && state == FlushedLogs {
        state := Failed;
      }
    }

    method Validate(context: Context) returns (next: bool)
      modifies this`state
      ensures match Judge(context.RulesOf(templateId), bufOutput, bufOutputErr)
              case Unjudged => state == old(state)
              case Rejected => state == FailedValidation
              case Accepted => state == Finished
      ensures !context.serverEnabled || templateId !in context.templates ==> state == old(state)
      ensures context.serverEnabled && templateId in context.templates ==>
                state == if forall rule :: rule in context.templates[templateId] ==>
                              MatchesSomeLine(if rule.outputStream == 1 then bufOutput else bufOutputErr, rule.text)
                              == rule.mustContain
                         then Finished else FailedValidation
      ensures next <==> Judge(context.RulesOf(templateId), bufOutput, bufOutputErr) == Accepted
                        && consensusRequestId in context.active
      decreases 1
    {
      next := false;
      if !context.serverEnabled {
        return;
      }
      if templateId !in context.templates {
        return;
      }
      var rules := context.templates[templateId];
      var failedValidation := false;
      var i := 0;
      while i < |rules|
        invariant 0 <= i <= |rules|
        invariant !failedValidation && state == old(state)
        invariant forall k :: 0 <= k < i ==> RuleHolds(rules[k], bufOutput, bufOutputErr)
      {
        var stream := if rules[i].outputStream == 1 then bufOutput else bufOutputErr;
        var matched := MatchOnLine(stream, rules[i].text);
        if rules[i].mustContain && !matched {
          var _ := SetState(FailedValidation, context);
          failedValidation := true;
          break;
        } else if !rules[i].mustContain && matched {
          var _ := SetState(FailedValidation, context);
          failedValidation := true;
          break;
        }
        i := i + 1;
      }
      if !failedValidation {
        assert forall rule :: rule in rules ==> RuleHolds(rule, bufOutput, bufOutputErr);
        var _ := SetState(Finished, context);
        next := consensusRequestId in context.active;
      } else {
        assert rules[i] in rules;
      }
    }

    /** Everything handed to the log methods so far, sent or still buffered. */
    ghost function LoggedOutput(): seq<string>
      reads this
    {
      Output(sent) + bufOutput
    }

    ghost function LoggedErrors(): seq<string>
      reads this
    {
      Errors(sent) + bufOutputErr
    }

    /** Buffered lines never exceed ten between two log calls of a signed command. */
    ghost predicate Flushing()
      reads this
    {
      Signed() ==> |bufOutput| <= 10 && |bufOutputErr| <= 10 && SmallChunks(sent)
    }

    /** Update the local state, which may spawn a call of Next if this process is a server, and the server's state
        unless the command is local. */
    method NotifyServer(message: Status, context: Context) returns (next: bool)
      requires Flushing()
      modifies this`state, this`sent
      ensures sent == old(sent) + if Signed() then [State(message)] else []
      ensures Statuses(sent) == old(Statuses(sent)) + if Signed() then [message] else []
      ensures Flushing() && LoggedOutput() == old(LoggedOutput()) && LoggedErrors() == old(LoggedErrors())
      ensures state == Settle(old(state), message, Judge(context.RulesOf(templateId), bufOutput, bufOutputErr))
      ensures next <==> TriggersValidation(old(state), message) && state == Finished
                        && consensusRequestId in context.active
    {
      next := SetState(message, context);
      if Signed() {
        Appended(sent, State(message));
        sent := sent + [State(message)];
      }
    }

    method CheckFlushLogs()
      requires Signed() ==> |bufOutput| <= 11 && |bufOutputErr| <= 11 && SmallChunks(sent)
      modifies this`bufOutput, this`bufOutputErr, this`sent
      ensures Flushing() && Statuses(sent) == old(Statuses(sent))
      ensures LoggedOutput() == old(LoggedOutput()) && LoggedErrors() == old(LoggedErrors())
      ensures !Signed() ==> sent == old(sent)
    {
      if |bufOutput| > 10 || |bufOutputErr| > 10 {
        FlushLogs();
      }
    }

    method FlushLogs()
      requires Signed() ==> |bufOutput| <= 11 && |bufOutputErr| <= 11 && SmallChunks(sent)
      modifies this`bufOutput, this`bufOutputErr, this`sent
      ensures Statuses(sent) == old(Statuses(sent))
      ensures LoggedOutput() == old(LoggedOutput()) && LoggedErrors() == old(LoggedErrors())
      ensures Signed() ==> bufOutput == [] && bufOutputErr == [] && SmallChunks(sent)
      ensures !Signed() ==> bufOutput == old(bufOutput) && bufOutputErr == old(bufOutputErr) && sent == old(sent)
    {
      if !Signed() {
        return;
      }
      hide Statuses, Output, Errors, SmallChunks;
      Appended(sent, Logs(bufOutput, bufOutputErr));
      sent := sent + [Logs(bufOutput, bufOutputErr)];
      bufOutput := [];
      bufOutputErr := [];
      assert Output(sent) + [] == Output(sent) && Errors(sent) + [] == Errors(sent);
    }

    method LogOutput(line: string)
      requires Flushing()
      modifies this`bufOutput, this`bufOutputErr, this`sent
      ensures Flushing() && Statuses(sent) == old(Statuses(sent))
      ensures LoggedOutput() == old(LoggedOutput()) + [line] && LoggedErrors() == old(LoggedErrors())
      ensures !Signed() ==> sent == old(sent)
    {
      bufOutput := bufOutput + [line];
      CheckFlushLogs();
    }

    method LogError(line: string)
      requires Flushing()
      modifies this`bufOutput, this`bufOutputErr, this`sent
      ensures Flushing() && Statuses(sent) == old(Statuses(sent))
      ensures LoggedOutput() == old(LoggedOutput()) && LoggedErrors() == old(LoggedErrors()) + [line]
      ensures !Signed() ==> sent == old(sent)
    {
      bufOutputErr := bufOutputErr + [line];
      CheckFlushLogs();
    }

    /** Run the command on the client that holds `token`, or locally without one. A client stops at a signature that
        is not the hash of this command's text and id under its own token; otherwise the script runs. */
    method Execute(token: Option<string>, mac: Mac, outcome: Outcome, stdout: string, stderr: string, context: Context)
      returns (next: bool)
      requires sent == [] && bufOutput == [] && bufOutputErr == []
      modifies this`state, this`sent, this`bufOutput, this`bufOutputErr
      ensures signature == "" ==> sent == []
      ensures token.Some? && (mac(token.value, command, id) != signature || signature == "") ==>
                && (signature != "" ==> sent == [State(Validating), State(InvalidSignature)])
                && state == InvalidSignature && !next
      ensures token.None? || (mac(token.value, command, id) == signature && signature != "") ==>
                && (signature != "" ==> EmittedBy(sent, outcome, stdout, stderr) && SmallChunks(sent))
                && state == Ending(outcome, Judge(context.RulesOf(templateId), bufOutput, bufOutputErr))
                && (next <==> state == Finished && consensusRequestId in context.active)
                && (signature == "" ==> bufOutput == OutputScript(outcome, stdout)
                                        && bufOutputErr == ErrorScript(outcome, stderr))
                && (signature != "" ==> bufOutput == [] && bufOutputErr == [])
    {
      hide Judge, SmallChunks, Split, EmittedBy, OutputScript, ErrorScript;
      next := false;
      var _ := NotifyServer(Validating, context);
      if token.Some? {
        var expectedMac := ComputeHmac(mac, token.value);
        if expectedMac != signature || |signature| < 1 {
          var _ := NotifyServer(InvalidSignature, context);
          return;
        }
      }
      Appended([], State(Validating));
      assert [] + [State(Validating)] == [State(Validating)];
      next := RunScript(outcome, stdout, stderr, context);
    }

    /** The part of an execution after the signature was checked. */
    method RunScript(outcome: Outcome, stdout: string, stderr: string, context: Context) returns (next: bool)
      requires Flushing() && bufOutput == [] && bufOutputErr == [] && LoggedOutput() == [] && LoggedErrors() == []
      requires if Signed() then |sent| > 0 && Statuses(sent) == [Validating] else sent == []
      modifies this`state, this`sent, this`bufOutput, this`bufOutputErr
      ensures !Signed() ==> sent == []
      ensures Signed() ==> EmittedBy(sent, outcome, stdout, stderr) && SmallChunks(sent)
      ensures state == Ending(outcome, Judge(context.RulesOf(templateId), bufOutput, bufOutputErr))
      ensures next <==> state == Finished && consensusRequestId in context.active
      ensures LoggedOutput() == OutputScript(outcome, stdout) && LoggedErrors() == ErrorScript(outcome, stderr)
      ensures Signed() ==> bufOutput == [] && bufOutputErr == []
    {
      hide Judge, Split, Statuses, Output, Errors;
      next := false;
      var _ := NotifyServer(Starting, context);
      if outcome.NotStarted? {
        var _ := NotifyServer(FailedExecution, context);
        return;
      }
      var _ := NotifyServer(StartedExecution, context);
      next := Supervise(outcome, stdout, stderr, context);
    }

    /** The part of an execution after the script has started: wait for it, report how it ended, ship its logs. */
    method Supervise(outcome: Outcome, stdout: string, stderr: string, context: Context) returns (next: bool)
      requires !outcome.NotStarted? && Flushing() && state == StartedExecution
      requires Signed() ==> |sent| > 0 && Statuses(sent) == [Validating, Starting, StartedExecution]
      requires Signed() ==> bufOutput == [] && bufOutputErr == []
      requires LoggedOutput() == [] && LoggedErrors() == []
      modifies this`state, this`sent, this`bufOutput, this`bufOutputErr
      ensures !Signed() ==> sent == old(sent)
      ensures Signed() ==> EmittedBy(sent, outcome, stdout, stderr) && SmallChunks(sent)
      ensures Signed() ==> bufOutput == [] && bufOutputErr == []
      ensures LoggedOutput() == OutputScript(outcome, stdout) && LoggedErrors() == ErrorScript(outcome, stderr)
      ensures state == Ending(outcome, Judge(context.RulesOf(templateId), bufOutput, bufOutputErr))
      ensures next <==> state == Finished && consensusRequestId in context.active
    {
      hide Judge, Split, SmallChunks, Statuses, Output, Errors;
      next := false;
      if outcome.KillRefused? {
        return;
      }
      ReportExit(outcome, context);
      ShipStreams(Split(stdout), Split(stderr));
      assert LoggedOutput() == OutputScript(outcome, stdout);
      assert LoggedErrors() == ErrorScript(outcome, stderr);
      next := NotifyServer(FlushedLogs, context);
      if Signed() {
        assert Output(sent) == LoggedOutput();
        assert Errors(sent) == LoggedErrors();
        assert Statuses(sent) == StatusScript(outcome);
      }
    }

    method ReportExit(outcome: Outcome, context: Context)
      requires (outcome.Killed? || outcome.Exited?) && Flushing()
      requires Signed() ==> Statuses(sent) == [Validating, Starting, StartedExecution]
      requires LoggedOutput() == [] && LoggedErrors() == []
      modifies this`state, this`sent, this`bufOutput, this`bufOutputErr
      ensures Flushing() && (!Signed() ==> sent == old(sent))
      ensures Signed() ==> Statuses(sent) + [FlushedLogs] == StatusScript(outcome)
      ensures state == match outcome
                       case Killed => KilledExecution
                       case Exited(None) => FinishedExecution
                       case _ => FailedExecution
      ensures LoggedOutput() == []
      ensures LoggedErrors() == if outcome.Exited? && outcome.error.Some? then [outcome.error.value] else []
    {
      hide Judge, Statuses, Output, Errors, SmallChunks;
      match outcome {
        case Killed =>
          var _ := NotifyServer(KilledExecution, context);
        case Exited(Some(error)) =>
          var _ := NotifyServer(FailedExecution, context);
          LogError(error);
        case Exited(None) =>
          var _ := NotifyServer(FinishedExecution, context);
      }
    }

    /** The tail of an execution: log every line of both streams, then flush what is left. */
    method ShipStreams(lines: seq<string>, errorLines: seq<string>)
      requires Flushing()
      modifies this`sent, this`bufOutput, this`bufOutputErr
      ensures Flushing() && Statuses(sent) == old(Statuses(sent))
      ensures Signed() ==> bufOutput == [] && bufOutputErr == []
      ensures LoggedOutput() == old(LoggedOutput()) + lines && LoggedErrors() == old(LoggedErrors()) + errorLines
      ensures !Signed() ==> sent == old(sent)
    {
      for i := 0 to |lines|
        invariant Flushing() && Statuses(sent) == old(Statuses(sent)) && (!Signed() ==> sent == old(sent))
        invariant LoggedOutput() == old(LoggedOutput()) + lines[..i] && LoggedErrors() == old(LoggedErrors())
      {
        assert lines[..i + 1] == lines[..i] + [lines[i]];
        LogOutput(lines[i]);
      }
      assert lines[..|lines|] == lines;
      for i := 0 to |errorLines|
        invariant Flushing() && Statuses(sent) == old(Statuses(sent)) && (!Signed() ==> sent == old(sent))
        invariant LoggedOutput() == old(LoggedOutput()) + lines
        invariant LoggedErrors() == old(LoggedErrors()) + errorLines[..i]
      {
        assert errorLines[..i + 1] == errorLines[..i] + [errorLines[i]];
        LogError(errorLines[i]);
      }
      assert errorLines[..|errorLines|] == errorLines;
      FlushLogs();
    }

    /** The server's side of a log post. */
    method ReceiveLogs(output: seq<string>, errors: seq<string>)
      modifies this`bufOutput, this`bufOutputErr
      ensures bufOutput == old(bufOutput) + output && bufOutputErr == old(bufOutputErr) + errors
    {
      for i := 0 to |output|
        invariant bufOutput == old(bufOutput) + output[..i] && bufOutputErr == old(bufOutputErr)
      {
        bufOutput := bufOutput + [output[i]];
      }
      for i := 0 to |errors|
        invariant bufOutput == old(bufOutput) + output && bufOutputErr == old(bufOutputErr) + errors[..i]
      {
        bufOutputErr := bufOutputErr + [errors[i]];
      }
    }
  }

  /** The loop over one stream's lines, looking for a rule's text. */
  method MatchOnLine(stream: seq<string>, text: string) returns (matched: bool)
    ensures matched <==> MatchesSomeLine(stream, text)
  {
    matched := false;
    for i := 0 to |stream|
      invariant !matched && forall k :: 0 <= k < i ==> !Contains(stream[k], text)
    {
      if Contains(stream[i], text) {
        assert stream[i] in stream;
        return true;
      }
    }
  }

  // ---------- the server's fold over delivered messages ----------

  /** What the server records about one command; `nexts` counts the calls of Next it spawned. */
  datatype Record = Record(status: Status, output: seq<string>, errors: seq<string>, nexts: nat)

  const FRESH_RECORD := Record(Pending, [], [], 0)

  ghost function Receive(record: Record, message: Message, rules: Option<seq<Rule>>): Record {
    match message
    case Logs(output, errors) => record.(output := record.output + output, errors := record.errors + errors)
    case State(status) =>
      var settled := Settle(record.status, status, Judge(rules, record.output, record.errors));
      record.(status := settled,
              nexts := record.nexts
                       + if TriggersValidation(record.status, status) && settled == Finished then 1 else 0)
  }

  ghost function Deliver(messages: seq<Message>, rules: Option<seq<Rule>>): Record {
    if messages == [] then FRESH_RECORD
    else Receive(Deliver(messages[..|messages| - 1], rules), messages[|messages| - 1], rules)
  }

  function LastStatus(messages: seq<Message>): Status {
    var statuses := Statuses(messages);
    if statuses == [] then Pending else statuses[|statuses| - 1]
  }

  /** Before `flushed_logs` the server only records: the last status and all lines, however chunked. */
  lemma {:induction false} DeliveredBeforeFlush(messages: seq<Message>, rules: Option<seq<Rule>>)
    requires FlushedLogs !in Statuses(messages)
    ensures Deliver(messages, rules) == Record(LastStatus(messages), Output(messages), Errors(messages), 0)
  {
    if messages != [] {
      var init, last := messages[..|messages| - 1], messages[|messages| - 1];
      if last.State? {
        assert last.status == Statuses(messages)[|Statuses(messages)| - 1];
        forall s | s in Statuses(init) ensures s in Statuses(messages) {}
      }
      DeliveredBeforeFlush(init, rules);
    }
  }

  /** What is sent, outcome by outcome: the statuses in their order, every line of the streams of a script that was
      waited for, and first among the errors the error it exited with. */
  lemma SentByOutcome(messages: seq<Message>, outcome: Outcome, stdout: string, stderr: string)
    requires EmittedBy(messages, outcome, stdout, stderr)
    ensures var statuses, output, errors := Statuses(messages), Output(messages), Errors(messages);
      match outcome
      case NotStarted => statuses == [Validating, Starting, FailedExecution] && output == [] && errors == []
      case KillRefused => statuses == [Validating, Starting, StartedExecution] && output == [] && errors == []
      case Killed =>
        && statuses == [Validating, Starting, StartedExecution, KilledExecution, FlushedLogs]
        && Join(output) == stdout && Join(errors) == stderr
      case Exited(None) =>
        && statuses == [Validating, Starting, StartedExecution, FinishedExecution, FlushedLogs]
        && Join(output) == stdout && Join(errors) == stderr
      case Exited(Some(error)) =>
        && statuses == [Validating, Starting, StartedExecution, FailedExecution, FlushedLogs]
        && Join(output) == stdout && errors[0] == error && Join(errors[1..]) == stderr
  {
    hide Statuses, Output, Errors, Split, Join;
    if outcome.Exited? && outcome.error.Some? {
      assert Errors(messages)[1..] == Split(stderr);
    }
  }

  lemma RulesOnStreams(rules: seq<Rule>, stdout: string, stderr: string)
    ensures (forall rule :: rule in rules ==> RuleHolds(rule, Split(stdout), Split(stderr)))
            <==> forall rule :: rule in rules ==>
                   ('\n' !in rule.text && Contains(if rule.outputStream == 1 then stdout else stderr, rule.text))
                   == rule.mustContain
  {
    hide MatchesSomeLine, Split, Contains;
    forall rule | rule in rules
      ensures RuleHolds(rule, Split(stdout), Split(stderr))
              <==> ('\n' !in rule.text && Contains(if rule.outputStream == 1 then stdout else stderr, rule.text))
                   == rule.mustContain
    {
      LineMatchIsStreamMatch(if rule.outputStream == 1 then stdout else stderr, rule.text);
    }
  }

  /** The verdict of a whole execution, over every way its messages can be chunked: the command is finished exactly
      when the script exited zero, its template is stored and every rule holds of the raw streams: its text, free of
      line ends, is a substring of the stream it names, or is not, as the rule demands. Non-zero exits end failed,
      killed runs never finish, and Next is spawned exactly with `finished`. */
  lemma {:induction false} ExecutionVerdict(messages: seq<Message>, outcome: Outcome, stdout: string, stderr: string,
                                            rules: Option<seq<Rule>>)
    requires EmittedBy(messages, outcome, stdout, stderr)
    ensures var record := Deliver(messages, rules);
      && (record.status == Finished <==>
            outcome == Exited(None) && rules.Some?
            && forall rule :: rule in rules.value ==>
                 ('\n' !in rule.text && Contains(if rule.outputStream == 1 then stdout else stderr, rule.text))
                 == rule.mustContain)
      && (outcome.Exited? && outcome.error.Some? ==> record.status == Failed)
      && (outcome == Killed ==> record.status == FlushedLogs)
      && (outcome == NotStarted ==> record.status == FailedExecution)
      && (outcome == KillRefused ==> record.status == StartedExecution)
      && (outcome == Exited(None) ==>
            record.status == match rules case None => FlushedLogs
                             case Some(_) => if record.status == Finished then Finished else FailedValidation)
      && record.nexts == (if record.status == Finished then 1 else 0)
      && record.output == Output(messages) && record.errors == Errors(messages)
      && record.status == Ending(outcome, Judge(rules, record.output, record.errors))
  {
    if outcome.NotStarted? || outcome.KillRefused? {
      DeliveredBeforeFlush(messages, rules);
    } else {
      var init := messages[..|messages| - 1];
      assert Statuses(messages) == Statuses(init) + [FlushedLogs];
      assert Statuses(init) == StatusScript(outcome)[..4];
      DeliveredBeforeFlush(init, rules);
      if outcome == Exited(None) && rules.Some? {
        RulesOnStreams(rules.value, stdout, stderr);
        hide RuleHolds, Contains, Split;
      }
    }
  }

  /** For rules whose text spans no line end, that is a plain substring check, for both polarities. */
  lemma VerdictIsSubstringCheck(messages: seq<Message>, stdout: string, stderr: string, rules: seq<Rule>)
    requires EmittedBy(messages, Exited(None), stdout, stderr)
    requires forall rule :: rule in rules ==> '\n' !in rule.text
    ensures Deliver(messages, Some(rules)).status == Finished <==>
            forall rule :: rule in rules ==>
              Contains(if rule.outputStream == 1 then stdout else stderr, rule.text) == rule.mustContain
  {
    ExecutionVerdict(messages, Exited(None), stdout, stderr, Some(rules));
  }
}
