/** The PowerShell host adapter of the PowerShell connection form: the state the
    engine and the form observe through it, and every operation of the host as
    a pure transition on that state.

    Runspaces are an opaque type parameter `R`; a C# reference that may be null
    is an `Option<R>`. */
module PowerShellHost {
  import opened Wrappers

  /** A C# `int`. */
  type int32 = x: int | -0x8000_0000 <= x < 0x8000_0000

  /** A `System.Guid`, as its 128-bit value. */
  type Guid = x: int | 0 <= x < 0x1_0000_0000_0000_0000_0000_0000_0000_0000

  /** A `CultureInfo`, identified by its culture name. */
  datatype CultureInfo = CultureInfo(name: string)

  /** A `System.Version`. */
  datatype Version = Version(major: nat, minor: nat, build: nat, revision: nat)

  /** The host's display name. */
  const HostName: string := "MySampleConsoleHostImplementation"

  /** The host's version, 1.0.0.0. */
  const HostVersion: Version := Version(1, 0, 0, 0)

  /** The error raised by a capability the host does not implement. */
  datatype HostError = NotImplemented(message: string)

  const NotImplementedMessage: string := "The method or operation is not implemented."

  /** The part of the connection form the host reads and writes: the runspace
      commands run in, and the exit request the form polls. */
  datatype ConnectionForm<R> = ConnectionForm(myRunSpace: Option<R>, shouldExit: bool, exitCode: int32)

  /** What the host forwards to its UI object: whether input was ended, every
      command added to history in call order, every intellisense command
      handed over in call order, and the at-command-prompt flag. How the UI
      itself stores, filters or deduplicates them is not part of this model. */
  datatype HostUi = HostUi(inputEnded: bool, history: seq<string>, candidates: seq<string>, atCommandPrompt: bool)

  /** Values fixed when the host is constructed: the culture snapshots of the
      creating thread. */
  datatype CultureSnapshots = CultureSnapshots(culture: CultureInfo, uiCulture: CultureInfo)

  /** The static instance identifier: drawn once for the whole class and shared
      by every host. Which value the draw yields is left open. */
  const ClassInstanceId: Guid

  /** The whole host: the form it drives, the runspace saved by a push
      (`pushedRunspace`), the UI state and the culture snapshots. */
  datatype Host<R> = Host(program: ConnectionForm<R>, pushed: Option<R>, ui: HostUi, cultures: CultureSnapshots)

  /** Two hosts agree on the active and the saved runspace. */
  ghost predicate SameSession<R>(h: Host<R>, h': Host<R>) {
    h'.program.myRunSpace == h.program.myRunSpace && h'.pushed == h.pushed
  }

  /** Two hosts agree on the form's exit request. */
  ghost predicate SameExitRequest<R>(h: Host<R>, h': Host<R>) {
    h'.program.shouldExit == h.program.shouldExit && h'.program.exitCode == h.program.exitCode
  }

  // ---------------------------------------------------------------------------
  // Construction and metadata

  /** Constructs a host for `program`. `culture` and `uiCulture` are the
      creating thread's cultures at this moment; `ui` is the freshly
      constructed UI object. */
  function NewHost<R>(program: ConnectionForm<R>, culture: CultureInfo,
                      uiCulture: CultureInfo, ui: HostUi): (h: Host<R>)
    ensures !IsRunspacePushed(h)
    ensures h.program == program && Runspace(h) == program.myRunSpace
    ensures CurrentCulture(h) == culture && CurrentUICulture(h) == uiCulture
    ensures InstanceId(h) == ClassInstanceId
    ensures UI(h) == ui
  {
    Host(program, None, ui, CultureSnapshots(culture, uiCulture))
  }

  function CurrentCulture<R>(h: Host<R>): CultureInfo {
    h.cultures.culture
  }

  function CurrentUICulture<R>(h: Host<R>): CultureInfo {
    h.cultures.uiCulture
  }

  function InstanceId<R>(h: Host<R>): Guid {
    ClassInstanceId
  }

  function Name<R>(h: Host<R>): string {
    HostName
  }

  function HostVersionOf<R>(h: Host<R>): Version {
    HostVersion
  }

  function UI<R>(h: Host<R>): HostUi {
    h.ui
  }

  // ---------------------------------------------------------------------------
  // Interactive sessions

  /** True exactly when a runspace has been saved by a push; derived, never
      stored on its own. */
  predicate IsRunspacePushed<R>(h: Host<R>) {
    h.pushed.Some?
  }

  /** The runspace commands currently run in: the form's `myRunSpace`. */
  function Runspace<R>(h: Host<R>): Option<R> {
    h.program.myRunSpace
  }

  /** Writes the form's runspace. */
  function SetRunspace<R>(h: Host<R>, runspace: Option<R>): (h': Host<R>)
    ensures Runspace(h') == runspace
    ensures h'.pushed == h.pushed && SameExitRequest(h, h')
    ensures h'.ui == h.ui && h'.cultures == h.cultures
  {
    h.(program := h.program.(myRunSpace := runspace))
  }

  /** Opens an interactive session: the active runspace is saved and `runspace`
      becomes active. Only one runspace is ever saved, so a push while pushed
      forgets the earlier saved one. */
  function PushRunspace<R>(h: Host<R>, runspace: Option<R>): (h': Host<R>)
    ensures h'.pushed == Runspace(h)
    ensures Runspace(h') == runspace
    ensures IsRunspacePushed(h') <==> Runspace(h).Some?
    ensures SameExitRequest(h, h') && h'.ui == h.ui && h'.cultures == h.cultures
  {
    SetRunspace(h.(pushed := Runspace(h)), runspace)
  }

  /** Closes an interactive session: the saved runspace becomes active again
      and nothing stays saved. With nothing pushed, the active runspace
      becomes null. */
  function PopRunspace<R>(h: Host<R>): (h': Host<R>)
    ensures Runspace(h') == h.pushed
    ensures !IsRunspacePushed(h')
    ensures !IsRunspacePushed(h) ==> Runspace(h').None?
    ensures SameExitRequest(h, h') && h'.ui == h.ui && h'.cultures == h.cultures
  {
    SetRunspace(h, h.pushed).(pushed := None)
  }

  // ---------------------------------------------------------------------------
  // Exit and nested prompts

  /** Tells the form that exit was requested with `exitCode`. */
  function SetShouldExit<R>(h: Host<R>, exitCode: int32): (h': Host<R>)
    ensures h'.program.shouldExit && h'.program.exitCode == exitCode
    ensures SameSession(h, h') && h'.ui == h.ui && h'.cultures == h.cultures
  {
    h.(program := h.program.(shouldExit := true, exitCode := exitCode))
  }

  /** The UI's end-of-input signal. */
  function EndInput(ui: HostUi): (ui': HostUi)
    ensures ui'.inputEnded
    ensures ui'.(inputEnded := ui.inputEnded) == ui
  {
    ui.(inputEnded := true)
  }

  /** Ends UI input; nothing else changes. */
  function Exit<R>(h: Host<R>): (h': Host<R>)
    ensures h'.ui.inputEnded
    ensures h'.ui.(inputEnded := h.ui.inputEnded) == h.ui
    ensures h'.program == h.program && h'.pushed == h.pushed && h'.cultures == h.cultures
  {
    h.(ui := EndInput(h.ui))
  }

  /** Leaves a nested prompt. It ends UI input exactly as `Exit` does; it does
      not raise. */
  function ExitNestedPrompt<R>(h: Host<R>): (h': Host<R>)
    ensures h' == Exit(h)
  {
    h.(ui := EndInput(h.ui))
  }

  /** Entering a nested prompt is not implemented: it raises in every state. */
  function EnterNestedPrompt<R>(h: Host<R>): (r: Result<Host<R>, HostError>)
    ensures r.Failure? && r.error == NotImplemented(NotImplementedMessage)
  {
    Failure(NotImplemented(NotImplementedMessage))
  }

  // ---------------------------------------------------------------------------
  // History, intellisense and the prompt flag, forwarded to the UI

  /** Hands `command` to the UI's history, verbatim and after every earlier one. */
  function AddToCommandHistory<R>(h: Host<R>, command: string): (h': Host<R>)
    ensures h'.ui.history == h.ui.history + [command]
    ensures h'.ui.(history := h.ui.history) == h.ui
    ensures h'.program == h.program && h'.pushed == h.pushed && h'.cultures == h.cultures
  {
    h.(ui := h.ui.(history := h.ui.history + [command]))
  }

  /** Hands `commands` to the UI's intellisense, after everything handed earlier. */
  function AddIntellisenseCommands<R>(h: Host<R>, commands: seq<string>): (h': Host<R>)
    ensures h'.ui.candidates == h.ui.candidates + commands
    ensures h'.ui.(candidates := h.ui.candidates) == h.ui
    ensures h'.program == h.program && h'.pushed == h.pushed && h'.cultures == h.cultures
  {
    h.(ui := h.ui.(candidates := h.ui.candidates + commands))
  }

  /** Reads the UI's at-command-prompt flag; the host keeps no copy. */
  function AtCommandPrompt<R>(h: Host<R>): bool {
    h.ui.atCommandPrompt
  }

  /** Writes the UI's at-command-prompt flag; reading it straight back yields
      the value written. */
  function SetAtCommandPrompt<R>(h: Host<R>, value: bool): (h': Host<R>)
    ensures AtCommandPrompt(h') == value
    ensures h'.ui.(atCommandPrompt := h.ui.atCommandPrompt) == h.ui
    ensures h'.program == h.program && h'.pushed == h.pushed && h'.cultures == h.cultures
  {
    h.(ui := h.ui.(atCommandPrompt := value))
  }

  // ---------------------------------------------------------------------------
  // Properties relating several calls

  /** Reading the runspace back after writing it yields the value written. */
  lemma RunspaceReadsBackWrite<R>(h: Host<R>, runspace: Option<R>)
    ensures Runspace(SetRunspace(h, runspace)) == runspace
    ensures SetRunspace(h, Runspace(h)) == h
  {
  }

  /** A push followed by a pop brings the active runspace back and leaves
      nothing pushed; from an unpushed host it restores the host exactly. */
  lemma PushPopRoundTrip<R>(h: Host<R>, runspace: Option<R>)
    ensures Runspace(PopRunspace(PushRunspace(h, runspace))) == Runspace(h)
    ensures !IsRunspacePushed(PopRunspace(PushRunspace(h, runspace)))
    ensures !IsRunspacePushed(h) ==> PopRunspace(PushRunspace(h, runspace)) == h
  {
  }

  /** Two pushes in a row keep only the runspace active before the second:
      one pop restores it, not the runspace active before the first push. */
  lemma SingleLevelNesting<R>(h: Host<R>, b: R, c: R)
    ensures var h2 := PushRunspace(PushRunspace(h, Some(b)), Some(c));
            && Runspace(h2) == Some(c) && h2.pushed == Some(b)
            && Runspace(PopRunspace(h2)) == Some(b) && !IsRunspacePushed(PopRunspace(h2))
  {
  }

  /** `n` consecutive pops. */
  function PopRunspaceTimes<R>(h: Host<R>, n: nat): Host<R> {
    if n == 0 then h else PopRunspace(PopRunspaceTimes(h, n - 1))
  }

  /** Once one pop has happened, every further pop leaves the null runspace
      active and nothing pushed. */
  lemma RepeatedPopsDrain<R>(h: Host<R>, n: nat)
    requires n >= 2
    ensures Runspace(PopRunspaceTimes(h, n)).None?
    ensures !IsRunspacePushed(PopRunspaceTimes(h, n))
  {
  }

  /** After two pushes the runspace active before the first push can never be
      made active again by popping: the pops yield `c`, then `b`, then null. */
  lemma FirstRunspaceUnrecoverable<R>(h: Host<R>, b: R, c: R, n: nat)
    requires Runspace(h).Some? && Runspace(h) != Some(b) && Runspace(h) != Some(c)
    ensures Runspace(PopRunspaceTimes(PushRunspace(PushRunspace(h, Some(b)), Some(c)), n)) != Runspace(h)
  {
  }

  /** A later exit request overwrites the exit code of an earlier one. */
  lemma ExitCodeLastWriteWins<R>(h: Host<R>, first: int32, second: int32)
    ensures SetShouldExit(SetShouldExit(h, first), second) == SetShouldExit(h, second)
    ensures SetShouldExit(SetShouldExit(h, first), second).program.exitCode == second
  {
  }

  /** Ending input twice is the same as ending it once. */
  lemma ExitIsIdempotent<R>(h: Host<R>)
    ensures Exit(Exit(h)) == Exit(h)
    ensures ExitNestedPrompt(ExitNestedPrompt(h)) == ExitNestedPrompt(h)
  {
  }

  /** History keeps every command, in call order, duplicates included. */
  lemma HistoryAppendOrder<R>(h: Host<R>, first: string, second: string)
    ensures AddToCommandHistory(AddToCommandHistory(h, first), second).ui.history
            == h.ui.history + [first, second]
  {
  }
}
