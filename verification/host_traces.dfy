/** Sequences of calls made into the host by its callers (the engine and the
    connection form), and what any such sequence does to the host's state. */
module HostTraces {
  import opened Wrappers
  import opened PowerShellHost

  /** One call into the host that can change its state. */
  datatype HostCall<R> =
    | Push(runspace: Option<R>)
    | Pop
    | AssignRunspace(runspace: Option<R>)
    | RequestExit(exitCode: int32)
    | ExitInput
    | ExitNested
    | EnterNested
    | BeginApplication
    | EndApplication
    | AddHistory(command: string)
    | AddIntellisense(commands: seq<string>)
    | SetAtPrompt(value: bool)

  /** Whether `call` redirects the session: a push, a pop or a write of the
      `Runspace` property. */
  predicate IsSessionCall<R>(call: HostCall<R>) {
    call.Push? || call.Pop? || call.AssignRunspace?
  }

  /** Whether `call` ends UI input. */
  predicate EndsInput<R>(call: HostCall<R>) {
    call.ExitInput? || call.ExitNested?
  }

  /** Performs one call: the new host state, or the error the call raises.
      The begin/end-application notifications do nothing. */
  function Step<R>(h: Host<R>, call: HostCall<R>): (r: Result<Host<R>, HostError>)
    ensures r.Failure? <==> call.EnterNested?
    ensures r.Success? ==> r.value.cultures == h.cultures
    ensures r.Success? && !IsSessionCall(call) ==> SameSession(h, r.value)
    ensures r.Success? && h.program.shouldExit ==> r.value.program.shouldExit
  {
    match call
    case Push(runspace) => Success(PushRunspace(h, runspace))
    case Pop => Success(PopRunspace(h))
    case AssignRunspace(runspace) => Success(SetRunspace(h, runspace))
    case RequestExit(code) => Success(SetShouldExit(h, code))
    case ExitInput => Success(Exit(h))
    case ExitNested => Success(ExitNestedPrompt(h))
    case EnterNested => EnterNestedPrompt(h)
    case BeginApplication => Success(h)
    case EndApplication => Success(h)
    case AddHistory(command) => Success(AddToCommandHistory(h, command))
    case AddIntellisense(commands) => Success(AddIntellisenseCommands(h, commands))
    case SetAtPrompt(value) => Success(SetAtCommandPrompt(h, value))
  }

  /** The state after `call`; a call that raises does so before touching the
      state, so the caller is left with the state it had. */
  function After<R>(h: Host<R>, call: HostCall<R>): Host<R> {
    Step(h, call).GetOr(h)
  }

  /** The state after every call of `calls`, in order. The culture snapshots never
      change and a requested exit is never withdrawn. */
  function Run<R>(h: Host<R>, calls: seq<HostCall<R>>): (h': Host<R>)
    ensures h'.cultures == h.cultures
    ensures h.program.shouldExit ==> h'.program.shouldExit
    decreases |calls|
  {
    if |calls| == 0 then h else After(Run(h, calls[..|calls| - 1]), calls[|calls| - 1])
  }

  // ---------------------------------------------------------------------------
  // Reference views of a call sequence

  /** The commands added to history by `calls`, in call order. */
  function CommandsOf<R>(calls: seq<HostCall<R>>): seq<string>
    decreases |calls|
  {
    if |calls| == 0 then []
    else
      var last := calls[|calls| - 1];
      CommandsOf(calls[..|calls| - 1]) + (if last.AddHistory? then [last.command] else [])
  }

  /** The intellisense commands handed over by `calls`, in call order. */
  function CandidatesOf<R>(calls: seq<HostCall<R>>): seq<string>
    decreases |calls|
  {
    if |calls| == 0 then []
    else
      var last := calls[|calls| - 1];
      CandidatesOf(calls[..|calls| - 1]) + (if last.AddIntellisense? then last.commands else [])
  }

  /** The exit code of the last exit request in `calls`, if there is one. */
  function LastExitCode<R>(calls: seq<HostCall<R>>): Option<int32>
    decreases |calls|
  {
    if |calls| == 0 then None
    else if calls[|calls| - 1].RequestExit? then Some(calls[|calls| - 1].exitCode)
    else LastExitCode(calls[..|calls| - 1])
  }

  /** The value of the last write of the prompt flag in `calls`, if there is one. */
  function LastPromptValue<R>(calls: seq<HostCall<R>>): Option<bool>
    decreases |calls|
  {
    if |calls| == 0 then None
    else if calls[|calls| - 1].SetAtPrompt? then Some(calls[|calls| - 1].value)
    else LastPromptValue(calls[..|calls| - 1])
  }

  /** The session calls of `calls`, in call order. */
  function SessionCalls<R>(calls: seq<HostCall<R>>): seq<HostCall<R>>
    decreases |calls|
  {
    if |calls| == 0 then []
    else
      var last := calls[|calls| - 1];
      SessionCalls(calls[..|calls| - 1]) + (if IsSessionCall(last) then [last] else [])
  }

  /** The last session call in `calls`, if there is one. */
  function LastSessionCall<R>(calls: seq<HostCall<R>>): (r: Option<HostCall<R>>)
    ensures r.Some? ==> IsSessionCall(r.value)
    decreases |calls|
  {
    if |calls| == 0 then None
    else if IsSessionCall(calls[|calls| - 1]) then Some(calls[|calls| - 1])
    else LastSessionCall(calls[..|calls| - 1])
  }

  // ---------------------------------------------------------------------------
  // What any call sequence does

  /** The UI's history is the earlier history followed by every command added,
      verbatim, in call order. */
  lemma {:induction false} RunAppendsHistory<R>(h: Host<R>, calls: seq<HostCall<R>>)
    ensures Run(h, calls).ui.history == h.ui.history + CommandsOf(calls)
    decreases |calls|
  {
    if |calls| > 0 {
      var init := calls[..|calls| - 1];
      RunAppendsHistory(h, init);
    }
  }

  /** The UI receives every intellisense command handed over, in call order. */
  lemma {:induction false} RunForwardsCandidates<R>(h: Host<R>, calls: seq<HostCall<R>>)
    ensures Run(h, calls).ui.candidates == h.ui.candidates + CandidatesOf(calls)
    decreases |calls|
  {
    if |calls| > 0 {
      var init := calls[..|calls| - 1];
      RunForwardsCandidates(h, init);
    }
  }

  /** Exit is requested after the calls exactly when it was before or some call
      requested it, and the exit code is that of the last request. */
  lemma {:induction false} RunExitRequest<R>(h: Host<R>, calls: seq<HostCall<R>>)
    ensures Run(h, calls).program.shouldExit <==> h.program.shouldExit || LastExitCode(calls).Some?
    ensures Run(h, calls).program.exitCode == LastExitCode(calls).GetOr(h.program.exitCode)
    decreases |calls|
  {
    if |calls| > 0 {
      RunExitRequest(h, calls[..|calls| - 1]);
    }
  }

  /** The prompt flag read after the calls is the last value written, or the
      earlier value when none was written. */
  lemma {:induction false} RunPromptFlag<R>(h: Host<R>, calls: seq<HostCall<R>>)
    ensures AtCommandPrompt(Run(h, calls)) == LastPromptValue(calls).GetOr(AtCommandPrompt(h))
    decreases |calls|
  {
    if |calls| > 0 {
      RunPromptFlag(h, calls[..|calls| - 1]);
    }
  }

  /** UI input is ended after the calls exactly when it was before or some call
      was `Exit` or `ExitNestedPrompt`. */
  lemma {:induction false} RunEndsInput<R>(h: Host<R>, calls: seq<HostCall<R>>)
    ensures Run(h, calls).ui.inputEnded
            <==> h.ui.inputEnded || exists i :: 0 <= i < |calls| && EndsInput(calls[i])
    decreases |calls|
  {
    if |calls| > 0 {
      var init := calls[..|calls| - 1];
      RunEndsInput(h, init);
      assert forall i :: 0 <= i < |init| ==> init[i] == calls[i];
      if !EndsInput(calls[|calls| - 1]) {
        if exists i :: 0 <= i < |calls| && EndsInput(calls[i]) {
          var i :| 0 <= i < |calls| && EndsInput(calls[i]);
          assert i < |init| && EndsInput(init[i]);
        }
      }
    }
  }

  /** Only session calls affect the session: the active and saved runspaces
      after the calls are those after the session calls alone. */
  lemma {:induction false} SessionDependsOnlyOnSessionCalls<R>(h: Host<R>, calls: seq<HostCall<R>>)
    ensures SameSession(Run(h, calls), Run(h, SessionCalls(calls)))
    decreases |calls|
  {
    if |calls| > 0 {
      var init := calls[..|calls| - 1];
      var last := calls[|calls| - 1];
      SessionDependsOnlyOnSessionCalls(h, init);
      var s := SessionCalls(init);
      if IsSessionCall(last) {
        assert SessionCalls(calls) == s + [last];
        assert (s + [last])[..|s|] == s;
      } else {
        assert SessionCalls(calls) == s;
      }
    }
  }

  /** The last session call decides what is visible of the session: without
      one it is unchanged; after a pop nothing is pushed; after a push or a
      write of `Runspace` its runspace is active. */
  lemma {:induction false} RunSessionState<R>(h: Host<R>, calls: seq<HostCall<R>>)
    ensures LastSessionCall(calls).None? ==> SameSession(h, Run(h, calls))
    ensures LastSessionCall(calls) == Some(Pop) ==> !IsRunspacePushed(Run(h, calls))
    ensures LastSessionCall(calls).Some? && !LastSessionCall(calls).value.Pop?
            ==> Runspace(Run(h, calls)) == LastSessionCall(calls).value.runspace
    decreases |calls|
  {
    if |calls| > 0 {
      RunSessionState(h, calls[..|calls| - 1]);
    }
  }

  /** Entering a nested prompt raises in every state, and the caller keeps the
      state it had. */
  lemma NestedPromptAlwaysFails<R>(h: Host<R>)
    ensures Step(h, EnterNested).Failure?
    ensures After(h, EnterNested) == h
  {
  }

  /** The begin/end-application notifications change nothing. */
  lemma ApplicationNotificationsChangeNothing<R>(h: Host<R>)
    ensures After(h, BeginApplication) == h && After(h, EndApplication) == h
  {
  }

  /** A host keeps the cultures it was constructed with, reports the class-wide
      instance identifier, and the constant name and version, whatever calls
      it receives. */
  lemma MetadataStable<R>(program: ConnectionForm<R>, culture: CultureInfo,
                          uiCulture: CultureInfo, ui: HostUi, calls: seq<HostCall<R>>)
    ensures var h := Run(NewHost(program, culture, uiCulture, ui), calls);
            && CurrentCulture(h) == culture && CurrentUICulture(h) == uiCulture
            && InstanceId(h) == ClassInstanceId
            && Name(h) == "MySampleConsoleHostImplementation" && HostVersionOf(h) == Version(1, 0, 0, 0)
  {
  }

  /** Every host of the class reports the same instance identifier, the
      class-wide one, however it was constructed and whatever calls it has
      received. */
  lemma InstanceIdIsClassWide<R>(h1: Host<R>, h2: Host<R>)
    ensures InstanceId(h1) == InstanceId(h2) == ClassInstanceId
  {
  }
}
