/** The session reducer (internal/session/events.go) and the path helpers it needs (internal/pathutil, unix build). */
module Events {
  import opened Basics
  import opened Protocol
  import Codec
  import Display
  import Merge

  /** The parts of path/filepath, bytes and unicode that are taken as given: Dir, Base, Rel (None is its error),
      EqualFold and IsGraphic; and the parser of candidate lines, which is Codec.ParseRecord. */
  datatype Env = Env(
    parse: Codec.Parser,
    dir: Bytes -> Bytes, last: Bytes -> Bytes, rel: (Bytes, Bytes) -> Option<Bytes>,
    equalFold: (Bytes, Bytes) -> bool, graphic: int -> bool)

  const DOT: byte := 46
  const TILDE: byte := 126

  // ----- locations

  predicate IsAbs(path: Bytes) { path != [] && path[0] == SLASH }

  function Parent(env: Env, location: Location): Location {
    if location.kind != LocFilesystem then Filesystem([SLASH]) else Filesystem(env.dir(location.path))
  }

  function TrimSlashes(path: Bytes): Bytes {
    if path != [] && path[|path| - 1] == SLASH then TrimSlashes(path[..|path| - 1]) else path
  }

  /** "Drives/" for the virtual location, else the escaped path with exactly one trailing slash. */
  function PromptDisplay(env: Env, location: Location): Bytes {
    if location.kind != LocFilesystem then [68, 114, 105, 118, 101, 115, SLASH]
    else
      var path := TrimSlashes(location.path);
      if path == [] then [SLASH] else Display.Escape(env.graphic, path) + [SLASH]
  }

  function CompactHome(env: Env, path: Bytes, home: Bytes): Bytes {
    if !IsAbs(path) || !IsAbs(home) then path
    else
      var relative := env.rel(home, path);
      if relative.None? || relative.value == [DOT, DOT] || [DOT, DOT, SLASH] <= relative.value then path
      else if relative.value == [DOT] then [TILDE]
      else [TILDE, SLASH] + relative.value
  }

  function PromptDisplayHome(env: Env, location: Location, home: Location): Bytes {
    if location.kind != LocFilesystem || home.kind != LocFilesystem then PromptDisplay(env, location)
    else PromptDisplay(env, Filesystem(CompactHome(env, location.path, home.path)))
  }

  /** splitSeparators: the nonempty parts between slashes. */
  function Fields(path: Bytes): seq<Bytes> { NonEmpty(Codec.Split(path, SLASH)) }

  function NonEmpty(parts: seq<Bytes>): seq<Bytes> {
    if parts == [] then []
    else if parts[0] == [] then NonEmpty(parts[1..])
    else [parts[0]] + NonEmpty(parts[1..])
  }

  predicate ValidAddQuery(base: Location, query: Bytes) {
    base.kind == LocFilesystem && query != [] && !IsAbs(query) && [DOT, DOT] !in Fields(query)
  }

  // ----- modes

  function ModePrompt(mode: Mode, addError: bool): string {
    match mode
    case Normal => "[N] "
    case Add => if addError then "[A!] " else "[A] "
    case Insert => "[I] "
  }

  function ModeEffect(state: State, clearQuery: bool, restore: nat): Effect {
    NO_EFFECT.(
      mode := Some(state.mode), prompt := state.prompt, rebind := Some(state.mode), clearQuery := clearQuery,
      restore := restore,
      search := if state.mode == Normal then "off" else "on",
      cursor := Some(if state.mode == Normal then CursorBlock else CursorLine))
  }

  function SetMode(p: Proposal, mode: Mode, clearQuery: bool): Proposal {
    var state := p.state.(mode := mode, addError := false, prompt := ModePrompt(mode, false));
    p.(state := state, effect := ModeEffect(state, clearQuery, p.base))
  }

  /** setNavigationUnchecked: leave Add mode, ask for a build of the target, show it in the header. */
  function Navigate(env: Env, p: Proposal, target: Location): Proposal {
    var mode := if p.state.mode == Add then Normal else p.state.mode;
    var state := p.state.(location := target, mode := mode, addError := false, prompt := ModePrompt(mode, false));
    p.(state := state,
       build := Some(BuildRequest(state.picker, target, false)),
       effect := ModeEffect(state, true, 0).(header := PromptDisplayHome(env, target, state.home), clearMulti := true))
  }

  function AddErrorProposal(snapshot: Snapshot): Proposal {
    var state := snapshot.state.(addError := true, prompt := ModePrompt(Add, true));
    Proposal(snapshot.generation, state, None, NO_EFFECT.(prompt := state.prompt, errorPrompt := true), None)
  }

  // ----- records

  function NavigationTarget(r: Record): Result<Location, Error> {
    if r.kind == KindVirtual then
      if r.target.kind != LocDrives || r.target.path != [] then Err(InvalidNavigation) else Ok(r.target)
    else if r.target.kind != LocFilesystem then Err(InvalidNavigation)
    else Ok(r.target)
  }

  function ResolveRecord(env: Env, snapshot: Snapshot, raw: Bytes): Result<Record, Error> {
    if env.parse(raw).Err? then Err(UnknownRecord)
    else
      var found := Merge.Lookup(snapshot.records, raw);
      if found.None? then Err(UnknownRecord) else Ok(found.value)
  }

  predicate CanNavigate(picker: Picker, kind: Kind) {
    match picker
    case PickerCD => kind in {KindLocal, KindDirectory, KindZoxide, KindDrive, KindVirtual}
    case PickerCP => kind in {KindDirectory, KindDrive, KindVirtual}
  }

  predicate ImmediateChild(env: Env, state: State, r: Record, query: Bytes) {
    && (r.kind == KindLocal || r.kind == KindDirectory)
    && r.target.kind == LocFilesystem
    && env.dir(r.target.path) == state.location.path
    && env.equalFold(env.last(r.target.path), query)
  }

  function FirstChild(env: Env, state: State, records: seq<Record>, query: Bytes): Option<Record> {
    if records == [] then None
    else if ImmediateChild(env, state, records[0], query) then Some(records[0])
    else FirstChild(env, state, records[1..], query)
  }

  function ExactImmediateChild(env: Env, snapshot: Snapshot, query: Bytes): Option<Record> {
    if snapshot.state.location.kind != LocFilesystem then None
    else FirstChild(env, snapshot.state, snapshot.records, query)
  }

  // ----- the reducer

  datatype Reduction = Propose(proposal: Proposal) | AddIntent(base: Location, query: Bytes)

  /** A proposal that changes nothing yet. */
  function Blank(snapshot: Snapshot): Proposal {
    Proposal(snapshot.generation, snapshot.state, None, NO_EFFECT, None)
  }

  function NavigateTo(env: Env, p: Proposal, r: Record): Result<Reduction, Error> {
    var target := NavigationTarget(r);
    if target.Err? then Err(target.error) else Ok(Propose(Navigate(env, p, target.value)))
  }

  function ReduceForward(env: Env, snapshot: Snapshot, p: Proposal, event: Event): Result<Reduction, Error> {
    if snapshot.state.mode == Add then Ok(Propose(p.(effect := NO_EFFECT.(ignore := true))))
    else if event.item == [] then Err(InvalidNavigation)
    else
      var r := ResolveRecord(env, snapshot, event.item);
      if r.Err? || !CanNavigate(snapshot.state.picker, r.value.kind) then Err(InvalidNavigation)
      else NavigateTo(env, p, r.value)
  }

  function ReduceSlash(env: Env, snapshot: Snapshot, p: Proposal, event: Event): Result<Reduction, Error> {
    var state := snapshot.state;
    if state.mode == Add then Ok(Propose(p.(effect := NO_EFFECT.(put := "/"))))
    else if event.query == [] then Ok(Propose(Navigate(env, p, Filesystem([SLASH]))))
    else if state.mode == Insert && event.query == [DOT, DOT] then
      Ok(Propose(Navigate(env, p, Parent(env, state.location))))
    else if state.mode == Insert then
      var child := ExactImmediateChild(env, snapshot, event.query);
      if child.None? then Ok(Propose(p.(effect := NO_EFFECT.(put := "/", invalidPath := true))))
      else NavigateTo(env, p, child.value)
    else Ok(Propose(p.(effect := NO_EFFECT.(ignore := true))))
  }

  function ReduceHome(env: Env, snapshot: Snapshot, p: Proposal, event: Event): Result<Reduction, Error> {
    var mode := snapshot.state.mode;
    if mode == Add || (mode == Insert && event.query != []) then Ok(Propose(p.(effect := NO_EFFECT.(put := "~"))))
    else if event.query != [] then Ok(Propose(p.(effect := NO_EFFECT.(ignore := true))))
    else Ok(Propose(Navigate(env, p, snapshot.state.home)))
  }

  function ReduceEnter(env: Env, snapshot: Snapshot, p: Proposal, event: Event): Result<Reduction, Error> {
    if snapshot.state.mode == Add then
      if !ValidAddQuery(snapshot.state.location, event.query) then Ok(Propose(AddErrorProposal(snapshot)))
      else Ok(AddIntent(snapshot.state.location, event.query))
    else if event.item != [] && ResolveRecord(env, snapshot, event.item).Err? then
      Err(ResolveRecord(env, snapshot, event.item).error)
    else if event.item != [] && ResolveRecord(env, snapshot, event.item).value.kind == KindVirtual then
      NavigateTo(env, p, ResolveRecord(env, snapshot, event.item).value)
    else Ok(Propose(p.(effect := NO_EFFECT.(accept := true))))
  }

  function ReduceEscape(p: Proposal): Proposal {
    match p.state.mode
    case Insert => SetMode(p, Normal, false)
    case Normal => p.(effect := NO_EFFECT.(abort := true))
    case Add => SetMode(p, Normal, true)
  }

  function Reduce(env: Env, snapshot: Snapshot, event: Event): Result<Reduction, Error> {
    var p := Blank(snapshot);
    match event.opcode
    case OpModeInsert =>
      if snapshot.state.mode != Normal then Err(InvalidEvent) else Ok(Propose(SetMode(p, Insert, false)))
    case OpModeAdd =>
      if snapshot.state.mode != Normal then Err(InvalidEvent) else Ok(Propose(SetMode(p, Add, true)))
    case OpEscape => Ok(Propose(ReduceEscape(p)))
    case OpForward => ReduceForward(env, snapshot, p, event)
    case OpParent =>
      if snapshot.state.mode == Add then Ok(Propose(p.(effect := NO_EFFECT.(ignore := true))))
      else Ok(Propose(Navigate(env, p, Parent(env, snapshot.state.location))))
    case OpSlash => ReduceSlash(env, snapshot, p, event)
    case OpHome => ReduceHome(env, snapshot, p, event)
    case OpEnter => ReduceEnter(env, snapshot, p, event)
    case OpRestoreView => Ok(Propose(p.(effect := NO_EFFECT.(restore := snapshot.generation))))
    case OpUnknown(_) => Err(InvalidEvent)
  }

  /** The proposal Handle submits: the reduction's own, or what the directory creation it asked for came to (None when
      the creation failed). */
  function Submitted(env: Env, snapshot: Snapshot, reduction: Reduction, created: Option<CreatedTree>): Proposal {
    match reduction
    case Propose(p) => p
    case AddIntent(_, _) =>
      if created.None? then AddErrorProposal(snapshot)
      else Navigate(env, Blank(snapshot).(created := created), created.value.target)
  }

  // ----- what every reduction guarantees

  /** The prompt says what the mode is, and an Add error is only ever shown in Add mode. */
  predicate StateOk(s: State) {
    s.prompt == ModePrompt(s.mode, s.addError) && (s.addError ==> s.mode == Add)
  }

  /** What the header must show in a state. */
  function Header(env: Env, state: State): Bytes { PromptDisplayHome(env, state.location, state.home) }

  predicate SafeHeader(header: Bytes) { header != [] && Display.OneLine(header) }

  /** The three things a proposal can be: a navigation, a change of mode, or an action within the mode. */
  predicate Navigation(p: Proposal) {
    && p.build == Some(BuildRequest(p.state.picker, p.state.location, false)) && p.state.mode != Add
    && SafeHeader(p.effect.header)
    && p.effect == ModeEffect(p.state, true, 0).(header := p.effect.header, clearMulti := true)
  }

  predicate ModeChange(from: State, p: Proposal) {
    && p.build.None? && p.state.mode != from.mode
    && p.effect == ModeEffect(p.state, p.effect.clearQuery, p.base)
  }

  predicate Action(from: State, p: Proposal) {
    && p.build.None? && p.state.mode == from.mode
    && p.effect in [NO_EFFECT.(ignore := true), NO_EFFECT.(put := "/"), NO_EFFECT.(put := "~"),
                    NO_EFFECT.(accept := true), NO_EFFECT.(abort := true), NO_EFFECT.(restore := p.base),
                    NO_EFFECT.(put := "/", invalidPath := true),
                    NO_EFFECT.(prompt := p.state.prompt, errorPrompt := true)]
    && (p.effect.invalidPath ==> from.mode == Insert)
    && (if p.effect.errorPrompt then p.state.addError else p.state == from)
  }

  predicate WellFormed(from: Snapshot, p: Proposal) {
    && p.base == from.generation
    && StateOk(p.state)
    && p.state.picker == from.state.picker && p.state.home == from.state.home
    && (Navigation(p) || ModeChange(from.state, p) || Action(from.state, p))
    && (!Navigation(p) ==> p.state.location == from.state.location && p.created.None?)
  }

  /** A header is never empty and never holds CR, LF, NUL or any other control byte, whatever the path's bytes. */
  lemma HeaderSafe(env: Env, location: Location, home: Location)
    requires Display.RejectsControls(env.graphic)
    ensures SafeHeader(PromptDisplayHome(env, location, home))
  {
    var shown := if location.kind != LocFilesystem || home.kind != LocFilesystem then location
                 else Filesystem(CompactHome(env, location.path, home.path));
    Display.EscapeOneLine(env.graphic, TrimSlashes(shown.path));
  }

  lemma NavigateWellFormed(env: Env, snapshot: Snapshot, created: Option<CreatedTree>, target: Location)
    requires Display.RejectsControls(env.graphic)
    ensures WellFormed(snapshot, Navigate(env, Blank(snapshot).(created := created), target))
  {
    HeaderSafe(env, target, snapshot.state.home);
  }

  lemma ReduceForwardWellFormed(env: Env, snapshot: Snapshot, event: Event)
    requires StateOk(snapshot.state) && Display.RejectsControls(env.graphic)
    ensures var r := ReduceForward(env, snapshot, Blank(snapshot), event);
            r.Ok? ==> r.value.Propose? && WellFormed(snapshot, r.value.proposal)
  {
    forall target { NavigateWellFormed(env, snapshot, None, target); }
  }

  lemma ReduceSlashWellFormed(env: Env, snapshot: Snapshot, event: Event)
    requires StateOk(snapshot.state) && Display.RejectsControls(env.graphic)
    ensures var r := ReduceSlash(env, snapshot, Blank(snapshot), event);
            r.Ok? ==> r.value.Propose? && WellFormed(snapshot, r.value.proposal)
  {
    forall target { NavigateWellFormed(env, snapshot, None, target); }
  }

  lemma ReduceEnterWellFormed(env: Env, snapshot: Snapshot, event: Event)
    requires StateOk(snapshot.state) && Display.RejectsControls(env.graphic)
    ensures var r := ReduceEnter(env, snapshot, Blank(snapshot), event);
            && (r.Ok? && r.value.Propose? ==> WellFormed(snapshot, r.value.proposal))
            && (r.Ok? && r.value.AddIntent? ==> snapshot.state.mode == Add)
  {
    forall target { NavigateWellFormed(env, snapshot, None, target); }
  }

  lemma SetModeWellFormed(snapshot: Snapshot, mode: Mode, clearQuery: bool)
    requires mode != snapshot.state.mode
    ensures WellFormed(snapshot, SetMode(Blank(snapshot), mode, clearQuery))
  {
  }

  lemma ReduceEscapeWellFormed(snapshot: Snapshot)
    requires StateOk(snapshot.state)
    ensures WellFormed(snapshot, ReduceEscape(Blank(snapshot)))
  {
    if snapshot.state.mode != Normal { SetModeWellFormed(snapshot, Normal, snapshot.state.mode == Add); }
  }

  /** Every proposal any event leads to, in any reachable snapshot, is well formed. */
  lemma SubmittedWellFormed(env: Env, snapshot: Snapshot, event: Event, created: Option<CreatedTree>)
    requires StateOk(snapshot.state) && Display.RejectsControls(env.graphic)
    requires Reduce(env, snapshot, event).Ok?
    ensures WellFormed(snapshot, Submitted(env, snapshot, Reduce(env, snapshot, event).value, created))
    ensures event.opcode == OpRestoreView ==>
              Submitted(env, snapshot, Reduce(env, snapshot, event).value, created).effect
              == NO_EFFECT.(restore := snapshot.generation)
  {
    match event.opcode
    case OpModeInsert => if snapshot.state.mode == Normal { SetModeWellFormed(snapshot, Insert, false); }
    case OpModeAdd => if snapshot.state.mode == Normal { SetModeWellFormed(snapshot, Add, true); }
    case OpEscape => ReduceEscapeWellFormed(snapshot);
    case OpForward => ReduceForwardWellFormed(env, snapshot, event);
    case OpParent => NavigateWellFormed(env, snapshot, None, Parent(env, snapshot.state.location));
    case OpSlash => ReduceSlashWellFormed(env, snapshot, event);
    case OpHome => NavigateWellFormed(env, snapshot, None, snapshot.state.home);
    case OpEnter =>
      ReduceEnterWellFormed(env, snapshot, event);
      if created.Some? { NavigateWellFormed(env, snapshot, created, created.value.target); }
    case _ =>
  }

  // ----- where events lead

  /** The picker may enter the record, or its name was typed before the slash. */
  predicate MayEnter(env: Env, state: State, query: Bytes, r: Record) {
    CanNavigate(state.picker, r.kind) || (state.location.kind == LocFilesystem && ImmediateChild(env, state, r, query))
  }

  /** The places the session may go from a snapshot: up, home, to the root, to a listed record the picker may enter, or
      to a directory just created. */
  ghost predicate Destination(env: Env, snapshot: Snapshot, query: Bytes, created: Option<CreatedTree>,
                              target: Location)
  {
    || target == Parent(env, snapshot.state.location)
    || target == snapshot.state.home
    || target == Filesystem([SLASH])
    || (created.Some? && target == created.value.target)
    || exists r :: r in snapshot.records && MayEnter(env, snapshot.state, query, r) && target == r.target
  }

  /** p goes to one of those places and says so in its header, or stays where the session is. */
  ghost predicate Lands(env: Env, snapshot: Snapshot, query: Bytes, created: Option<CreatedTree>, p: Proposal) {
    && HeaderFollows(env, snapshot, p)
    && (p.build.Some? ==>
          && p.build.value.location == p.state.location
          && Destination(env, snapshot, query, created, p.state.location))
  }

  /** The header is sent exactly with a navigation and names its place; nothing else moves the session. */
  predicate HeaderFollows(env: Env, from: Snapshot, p: Proposal) {
    if p.build.Some? then p.effect.header == Header(env, p.state)
    else p.effect.header == [] && p.state.location == from.state.location
  }

  lemma NavigateToLands(env: Env, snapshot: Snapshot, query: Bytes, r: Record)
    requires r in snapshot.records && MayEnter(env, snapshot.state, query, r)
    ensures var reduction := NavigateTo(env, Blank(snapshot), r);
            reduction.Ok? ==> reduction.value.Propose? && Lands(env, snapshot, query, None, reduction.value.proposal)
  {
  }

  lemma {:induction false} FirstChildListed(env: Env, state: State, records: seq<Record>, query: Bytes)
    ensures var child := FirstChild(env, state, records, query);
            child.Some? ==> child.value in records && ImmediateChild(env, state, child.value, query)
  {
    if records != [] && !ImmediateChild(env, state, records[0], query) {
      FirstChildListed(env, state, records[1..], query);
    }
  }

  lemma ResolvedIsListed(env: Env, snapshot: Snapshot, raw: Bytes)
    ensures var r := ResolveRecord(env, snapshot, raw); r.Ok? ==> r.value in snapshot.records
  {
  }

  lemma ForwardLands(env: Env, snapshot: Snapshot, event: Event)
    ensures var r := ReduceForward(env, snapshot, Blank(snapshot), event);
            r.Ok? ==> r.value.Propose? && Lands(env, snapshot, event.query, None, r.value.proposal)
  {
    ResolvedIsListed(env, snapshot, event.item);
    var r := ResolveRecord(env, snapshot, event.item);
    if r.Ok? && CanNavigate(snapshot.state.picker, r.value.kind) {
      NavigateToLands(env, snapshot, event.query, r.value);
    }
  }

  lemma SlashLands(env: Env, snapshot: Snapshot, event: Event)
    ensures var r := ReduceSlash(env, snapshot, Blank(snapshot), event);
            r.Ok? ==> r.value.Propose? && Lands(env, snapshot, event.query, None, r.value.proposal)
  {
    FirstChildListed(env, snapshot.state, snapshot.records, event.query);
    var child := ExactImmediateChild(env, snapshot, event.query);
    if child.Some? { NavigateToLands(env, snapshot, event.query, child.value); }
  }

  lemma EnterLands(env: Env, snapshot: Snapshot, event: Event)
    ensures var r := ReduceEnter(env, snapshot, Blank(snapshot), event);
            r.Ok? && r.value.Propose? ==> Lands(env, snapshot, event.query, None, r.value.proposal)
  {
    ResolvedIsListed(env, snapshot, event.item);
    var r := ResolveRecord(env, snapshot, event.item);
    if r.Ok? && r.value.kind == KindVirtual { NavigateToLands(env, snapshot, event.query, r.value); }
  }

  /** Whatever the event, the session goes only to its parent, home, the root, a listed record the picker may enter or a
      directory it created; the header then shows that place, and otherwise neither moves. */
  lemma EventsLand(env: Env, snapshot: Snapshot, event: Event, created: Option<CreatedTree>)
    requires Reduce(env, snapshot, event).Ok?
    ensures var reduction := Reduce(env, snapshot, event).value;
            Lands(env, snapshot, event.query, created, Submitted(env, snapshot, reduction, created))
  {
    match event.opcode
    case OpForward => ForwardLands(env, snapshot, event);
    case OpSlash => SlashLands(env, snapshot, event);
    case OpEnter => EnterLands(env, snapshot, event);
    case _ =>
  }
}
