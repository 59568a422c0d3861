# PowerShell host adapter: interactive-session state machine

A Dafny model of `PowerShellHost`, the adapter between the PowerShell engine
and EasyConnect's PowerShell connection form and terminal. The engine calls
the host for identity, culture, version and UI. Through the
`IHostSupportsInteractiveSession` interface, the engine also asks the host to push
and pop runspaces when a PSSession is opened or closed. The host tells the form when exit has been
requested, and it forwards command history, intellisense commands and the
at-command-prompt flag to its UI object.

The host is one immutable value, `PowerShellHost.Host<R>`:

- `program`: the part of the connection form the host writes.
  - `myRunSpace` is the active runspace.
  - `shouldExit` and `exitCode` are the exit request.
- `pushed`: the `pushedRunspace` field.
- `ui`: what the host has forwarded to its UI object.
- `cultures`: the culture snapshots taken at construction. The instance identifier is not stored;
  it is the class-wide constant `ClassInstanceId`.

Runspaces are an opaque type parameter `R`, and a C# reference that may be null is an
`Option<R>`. Every host operation is a pure function from one host value to the next.
`NotImplementedException` becomes a `Result` failure.
`HostTraces` models sequences of calls. `HostTraces.Run` applies them in order,
and the lemmas there say what any sequence of the host's calls does to the state.

Files:
- `wrappers.dfy` holds `Option` and `Result`.
- `powershell_host.dfy` holds the host state, its operations and properties about one or two calls.
- `host_traces.dfy` holds call sequences and the properties proved by induction over them.

Where the code and its comments disagree, the model follows the code:
- `ExitNestedPrompt` is documented as throwing. It actually ends UI input, just as `Exit` does.
- `InstanceId` is documented as "allocated at instantiation time". The field is `static`, so every
  host of the class reports the same value.

Two behaviours of the code are easy to overlook:
- Popping with nothing pushed is not an error and not a no-op. It makes the
  null runspace active.
- Pushing while the active runspace is null leaves `IsRunspacePushed` false. A push therefore does
  not always enter the "pushed" state.

Only one runspace is ever saved. A second push forgets a non-null runspace that
was active before the first push. When that runspace differs from both pushed
runspaces, `FirstRunspaceUnrecoverable` proves that no number of pops brings it back.

## Model

| member | source | states |
|---|---|---|
| PowerShellHost.NewHost | Protocols/PowerShell/PowerShellHost.cs:32-60 | a new host has nothing pushed. Its runspace is the form's. It holds the cultures taken at construction, reports the class-wide instance id, and its UI is the object built with it |
| PowerShellHost.CurrentCulture | Protocols/PowerShell/PowerShellHost.cs:101-107 | returns the culture snapshot stored at construction, never the thread's current culture |
| PowerShellHost.CurrentUICulture | Protocols/PowerShell/PowerShellHost.cs:119-125 | returns the UI-culture snapshot stored at construction |
| PowerShellHost.InstanceId | Protocols/PowerShell/PowerShellHost.cs:131-137 | returns the class-wide `ClassInstanceId`, whatever the host |
| PowerShellHost.Name | Protocols/PowerShell/PowerShellHost.cs:144-150 | returns the constant name `MySampleConsoleHostImplementation` |
| PowerShellHost.HostVersionOf | Protocols/PowerShell/PowerShellHost.cs:169-175 | returns the constant version 1.0.0.0 |
| PowerShellHost.UI | Protocols/PowerShell/PowerShellHost.cs:157-163 | returns the host's UI state |
| PowerShellHost.IsRunspacePushed | Protocols/PowerShell/PowerShellHost.cs:183-189 | true exactly when a runspace is saved; there is no separate flag that could disagree with it |
| PowerShellHost.Runspace | Protocols/PowerShell/PowerShellHost.cs:194-199 | reads the form's runspace; the host keeps no copy |
| PowerShellHost.AtCommandPrompt | Protocols/PowerShell/PowerShellHost.cs:72-77 | reads the UI's prompt flag; the host keeps no copy |
| PowerShellHost.SetRunspace | Protocols/PowerShell/PowerShellHost.cs:194-204 | the `Runspace` setter writes the form's runspace and nothing else. The saved runspace, exit request, UI and culture snapshots are unchanged |
| PowerShellHost.RunspaceReadsBackWrite | Protocols/PowerShell/PowerShellHost.cs:194-204 | reading `Runspace` after writing it yields the value written. Writing back the value just read changes nothing |
| PowerShellHost.PushRunspace | Protocols/PowerShell/PowerShellHost.cs:280-284 | the previously active runspace becomes the saved one and the argument becomes active. `IsRunspacePushed` is afterwards true exactly when the previous runspace was non-null. The exit request, UI and culture snapshots are unchanged |
| PowerShellHost.PopRunspace | Protocols/PowerShell/PowerShellHost.cs:270-274 | the saved runspace becomes active and nothing stays pushed. With nothing pushed, the active runspace becomes null. The exit request, UI and culture snapshots are unchanged |
| PowerShellHost.PushPopRoundTrip | Protocols/PowerShell/PowerShellHost.cs:270-284 | a push followed by a pop restores the active runspace and leaves nothing pushed. From an unpushed host it gives back exactly the same host |
| PowerShellHost.SingleLevelNesting | Protocols/PowerShell/PowerShellHost.cs:280-284 | after pushing B then C, C is active and B is saved. One pop makes B active with nothing pushed |
| PowerShellHost.RepeatedPopsDrain | Protocols/PowerShell/PowerShellHost.cs:270-274 | after two or more consecutive pops, the active runspace is null and nothing is pushed |
| PowerShellHost.FirstRunspaceUnrecoverable | Protocols/PowerShell/PowerShellHost.cs:270-284 | after pushing B then C onto a host whose runspace A differs from both, no number of pops makes A active again |
| PowerShellHost.SetShouldExit | Protocols/PowerShell/PowerShellHost.cs:259-263 | the form is told to exit with the given code. The runspaces, UI and culture snapshots are unchanged |
| PowerShellHost.ExitCodeLastWriteWins | Protocols/PowerShell/PowerShellHost.cs:259-263 | a second exit request overwrites the first: the result equals the second request alone |
| PowerShellHost.EndInput | Protocols/PowerShell/PowerShellHost.cs:62-65 | the UI's end-of-input signal marks input ended and changes nothing else in the UI |
| PowerShellHost.Exit | Protocols/PowerShell/PowerShellHost.cs:62-65 | UI input is marked ended. The rest of the UI, the form, the saved runspace and the culture snapshots are unchanged |
| PowerShellHost.ExitNestedPrompt | Protocols/PowerShell/PowerShellHost.cs:219-227 | leaving a nested prompt does exactly what `Exit` does and does not raise |
| PowerShellHost.ExitIsIdempotent | Protocols/PowerShell/PowerShellHost.cs:224-227 | ending input twice, through `Exit` or through `ExitNestedPrompt`, is the same as ending it once |
| PowerShellHost.EnterNestedPrompt | Protocols/PowerShell/PowerShellHost.cs:207-217 | entering a nested prompt fails with the not-implemented error and its message, in every state |
| PowerShellHost.AddToCommandHistory | Protocols/PowerShell/PowerShellHost.cs:109-112 | the command is appended verbatim to the UI's history. Nothing else in the UI or the host changes |
| PowerShellHost.HistoryAppendOrder | Protocols/PowerShell/PowerShellHost.cs:109-112 | two history additions appear in call order, with no reordering and no deduplication |
| PowerShellHost.AddIntellisenseCommands | Protocols/PowerShell/PowerShellHost.cs:67-70 | the commands are handed to the UI after everything handed before. Nothing else changes |
| PowerShellHost.SetAtCommandPrompt | Protocols/PowerShell/PowerShellHost.cs:72-83 | reading the prompt flag straight after writing it yields the value written. Nothing else changes |
| HostTraces.Step | Protocols/PowerShell/PowerShellHost.cs:194-284 | a call fails exactly when it is `EnterNestedPrompt`. No call changes the culture snapshots. Only push, pop and the `Runspace` setter change the runspaces. No call withdraws an exit request |
| HostTraces.Run | Protocols/PowerShell/PowerShellHost.cs:26-45 | across any sequence of calls, the culture snapshots never change and a requested exit is never withdrawn |
| HostTraces.RunAppendsHistory | Protocols/PowerShell/PowerShellHost.cs:109-112 | after any calls, the UI's history is the earlier history followed by every added command, in call order |
| HostTraces.RunForwardsCandidates | Protocols/PowerShell/PowerShellHost.cs:67-70 | after any calls, the UI has received every intellisense command handed over, in call order |
| HostTraces.RunExitRequest | Protocols/PowerShell/PowerShellHost.cs:259-263 | after any calls, exit is requested exactly when it was before or some call requested it. The exit code is that of the last request |
| HostTraces.RunPromptFlag | Protocols/PowerShell/PowerShellHost.cs:72-83 | after any calls, the prompt flag reads as the last value written, or the earlier value if none was written |
| HostTraces.RunEndsInput | Protocols/PowerShell/PowerShellHost.cs:62-65 | after any calls, UI input is ended exactly when it was before or some call was `Exit` or `ExitNestedPrompt` |
| HostTraces.SessionDependsOnlyOnSessionCalls | Protocols/PowerShell/PowerShellHost.cs:194-284 | after any calls, the active and saved runspaces are exactly those after the push, pop and `Runspace`-setter calls alone, in the same order |
| HostTraces.RunSessionState | Protocols/PowerShell/PowerShellHost.cs:183-204 | after any calls: with no push, pop or `Runspace` write, the runspaces are unchanged. After a final pop nothing is pushed. After a final push or `Runspace` write, its runspace is active |
| HostTraces.NestedPromptAlwaysFails | Protocols/PowerShell/PowerShellHost.cs:213-217 | entering a nested prompt fails in every state, and the caller is left with the state it had |
| HostTraces.ApplicationNotificationsChangeNothing | Protocols/PowerShell/PowerShellHost.cs:236-250 | the begin- and end-application notifications leave the state unchanged |
| HostTraces.MetadataStable | Protocols/PowerShell/PowerShellHost.cs:101-175 | after any calls, a host reports the cultures it was built with, the class-wide instance id, the name `MySampleConsoleHostImplementation` and version 1.0.0.0 |
| HostTraces.InstanceIdIsClassWide | Protocols/PowerShell/PowerShellHost.cs:42-45 | any two hosts report the same instance id, the class-wide one, however they were built and whatever calls they received |

## Left out

- The PowerShell engine and `Runspace` internals: runspaces are an opaque type parameter.
- The `PowerShellHostUi` class and the terminal control are not part of this model. The UI is the record of
  what the host forwards to it. How the UI stores, deduplicates or filters history and
  intellisense commands is not stated. The UI's initial state is a parameter of `NewHost`.
- `UI` returning the same object on every call is object identity, which a value model cannot
  express. The model only shows that no operation except the forwarding ones touches the UI state.
- The thread's ambient culture and `Guid.NewGuid()` are runtime effects. The two culture snapshots are
  parameters of `NewHost`; the static instance id is the constant `ClassInstanceId`, whose value is left open.
- The connection form is owned by the host value. In the program it is shared by reference, and
  other parts of the form can change `myRunSpace` and the exit flags. Those writes are outside the host.
- Unblocking a pending UI read from another thread is a concurrency effect. Ending input is modelled
  only as a flag on the UI state.
- A null connection form would raise `NullReferenceException` where the host reads or writes it
  (PowerShellHost.cs lines 198, 202 and 261). It is not modelled: the form is always present.
- A null history command or a null intellisense list is passed on to the UI unchanged. What the UI does
  with it is not shown. The model has no null strings or sequences.
- HostTraces.Step: direct writes to the public field `pushedRunspace` by other code are not calls of
  the model. Such a write would change the saved runspace, and `IsRunspacePushed` with it, without a push or pop.
