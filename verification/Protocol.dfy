/** The values that cross component boundaries (internal/protocol/types.go, internal/session/types.go). */
module Protocol {
  import opened Basics

  datatype Picker = PickerCD | PickerCP

  datatype Mode = Insert | Normal | Add

  datatype Kind = KindLocal | KindDirectory | KindFile | KindZoxide | KindDrive | KindVirtual

  datatype LocationKind = LocFilesystem | LocDrives

  datatype Location = Location(kind: LocationKind, path: Bytes)

  function Filesystem(path: Bytes): Location { Location(LocFilesystem, path) }

  datatype Opcode =
    | OpModeInsert | OpModeAdd | OpEscape | OpForward | OpParent
    | OpSlash | OpHome | OpEnter | OpRestoreView | OpUnknown(name: Bytes)

  datatype Event = Event(opcode: Opcode, query: Bytes, item: Bytes)

  datatype CursorShape = CursorLine | CursorBlock

  /** A generation of 0 means "none"; prompt, search and put are "" when absent. */
  datatype Effect = Effect(
    mode: Option<Mode>, prompt: string, header: Bytes, search: string, rebind: Option<Mode>,
    clearQuery: bool, clearMulti: bool, accept: bool, abort: bool, ignore: bool,
    put: string, invalidPath: bool, reload: nat, restore: nat,
    cursor: Option<CursorShape>, errorPrompt: bool)

  const NO_EFFECT := Effect(None, "", [], "", None, false, false, false, false, false, "", false, 0, 0, None, false)

  /** The three tab-separated columns of a candidate line. */
  datatype WireRecord = WireRecord(kind: Kind, display: Bytes, payload: Bytes)

  datatype Record = Record(kind: Kind, display: Bytes, path: Bytes, payload: Bytes, target: Location) {
    function Wire(): WireRecord { WireRecord(kind, display, payload) }
  }

  datatype State = State(picker: Picker, mode: Mode, location: Location, home: Location, prompt: string, addError: bool)

  datatype Snapshot = Snapshot(generation: nat, state: State, records: seq<Record>)

  datatype BuildRequest = BuildRequest(picker: Picker, location: Location, initial: bool)

  /** Directories one Add operation made, outermost first; a path is its list of components. */
  datatype CreatedTree = CreatedTree(target: Location, created: seq<seq<Bytes>>)

  datatype Proposal = Proposal(
    base: nat, state: State, build: Option<BuildRequest>, effect: Effect, created: Option<CreatedTree>)

  /** Contexts are named; which of them are cancelled is part of a component's state. */
  datatype Ctx = SessionCtx | SourceCtx | CallerCtx(n: nat)

  datatype Error =
    | Closed | Superseded | StaleGeneration | TransitionPending | NilGenerator | GenerationLimit
    | Cause(ctx: Ctx) | BuildFailed
    | InvalidEvent | InvalidNavigation | UnknownRecord | InputClosed
}
