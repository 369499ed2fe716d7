/** What each event does, opcode by opcode: where the session goes, which mode it takes, what fzf is asked for, and
    exactly which events are refused. */
module EventOutcomes {
  import opened Basics
  import opened Protocol
  import opened Events
  import Codec
  import Display
  import Merge

  /** What Handle submits for the event, or why it refuses it. */
  function Response(env: Env, s: Snapshot, event: Event, created: Option<CreatedTree>): Result<Proposal, Error> {
    var r := Reduce(env, s, event);
    if r.Err? then Err(r.error) else Ok(Submitted(env, s, r.value, created))
  }

  /** The session moves to target, out of Add mode; what such a proposal asks of fzf is fixed by Events.WellFormed and
      Events.HeaderFollows. */
  predicate Goes(s: Snapshot, r: Result<Proposal, Error>, target: Location) {
    && r.Ok? && r.value.build == Some(BuildRequest(s.state.picker, target, false))
    && r.value.state.location == target && !r.value.state.addError
    && r.value.state.mode == (if s.state.mode == Add then Normal else s.state.mode)
    && Shaped(r.value)
  }

  /** The cursor is a block exactly in Normal mode. */
  predicate Shaped(p: Proposal) {
    p.effect.mode == Some(p.state.mode) && p.effect.cursor ==
        Some(if p.state.mode == Normal then CursorBlock else CursorLine)
  }

  /** The session takes another mode and nothing else; the list of its generation is shown again. */
  predicate Switches(s: Snapshot, r: Result<Proposal, Error>, mode: Mode, clearQuery: bool) {
    && r.Ok? && r.value.build.None? && r.value.created.None?
    && r.value.state == s.state.(mode := mode, addError := false, prompt := ModePrompt(mode, false))
    && r.value.effect.rebind == Some(mode) && r.value.effect.clearQuery == clearQuery && !r.value.effect.clearMulti
    && r.value.effect.restore == s.generation && r.value.effect.prompt == ModePrompt(mode, false) && Shaped(r.value)
  }

  /** The session stays as it is and fzf is asked for e. */
  predicate Does(s: Snapshot, r: Result<Proposal, Error>, e: Effect) {
    r == Ok(Proposal(s.generation, s.state, None, e, None))
  }

  const IGNORE := NO_EFFECT.(ignore := true)

  // ----- modes

  lemma ModeKeysDo(env: Env, s: Snapshot, event: Event, created: Option<CreatedTree>)
    ensures var r := Response(env, s, event, created);
            && (event.opcode == OpModeInsert && s.state.mode == Normal ==> Switches(s, r, Insert, false))
            && (event.opcode == OpModeAdd && s.state.mode == Normal ==> Switches(s, r, Add, true))
            && (event.opcode in {OpModeInsert, OpModeAdd} && s.state.mode != Normal ==> r == Err(InvalidEvent))
            && (event.opcode.OpUnknown? ==> r == Err(InvalidEvent))
            && (event.opcode == OpRestoreView ==> Does(s, r, NO_EFFECT.(restore := s.generation)))
  {
  }

  /** Escape leaves Insert and Add mode, Add with its query; in Normal mode it ends the session. */
  lemma EscapeDoes(env: Env, s: Snapshot, event: Event, created: Option<CreatedTree>)
    requires event.opcode == OpEscape
    ensures var r := Response(env, s, event, created);
            match s.state.mode
            case Insert => Switches(s, r, Normal, false)
            case Add => Switches(s, r, Normal, true)
            case Normal => Does(s, r, NO_EFFECT.(abort := true))
  {
  }

  // ----- places

  /** The directory above a place; above Drives is the root. */
  predicate Above(env: Env, place: Location, target: Location) {
    target.kind == LocFilesystem && target.path == if place.kind == LocFilesystem then env.dir(place.path) else [SLASH]
  }

  lemma ParentDoes(env: Env, s: Snapshot, event: Event, created: Option<CreatedTree>, up: Location)
    requires event.opcode == OpParent && Above(env, s.state.location, up)
    ensures var r := Response(env, s, event, created);
            if s.state.mode == Add then Does(s, r, IGNORE) else Goes(s, r, up)
  {
  }

  /** The home key goes home only where it cannot be meant as text, and is ignored where text is not taken. */
  lemma HomeDoes(env: Env, s: Snapshot, event: Event, created: Option<CreatedTree>)
    requires event.opcode == OpHome
    ensures var r := Response(env, s, event, created);
            match s.state.mode
            case Add => Does(s, r, NO_EFFECT.(put := "~"))
            case Insert => if event.query != [] then Does(s, r, NO_EFFECT.(put := "~")) else Goes(s, r, s.state.home)
            case Normal => if event.query != [] then Does(s, r, IGNORE) else Goes(s, r, s.state.home)
  {
  }

  /** A listed directory directly inside the session's place whose name matches the query, letter case aside. */
  predicate NamesChild(env: Env, s: Snapshot, query: Bytes, r: Record) {
    && r.kind in {KindLocal, KindDirectory} && r.target == Filesystem(r.target.path)
    && s.state.location == Filesystem(env.dir(r.target.path)) && env.equalFold(env.last(r.target.path), query)
  }

  /** Slash is text in Add mode, leads to the root from an empty query and up from "..", and is ignored after other
      text in Normal mode. */
  lemma SlashDoes(env: Env, s: Snapshot, event: Event, created: Option<CreatedTree>, up: Location)
    requires event.opcode == OpSlash && Above(env, s.state.location, up)
    ensures var r := Response(env, s, event, created);
            if s.state.mode == Add then Does(s, r, NO_EFFECT.(put := "/"))
            else if event.query == [] then Goes(s, r, Filesystem([SLASH]))
            else if s.state.mode == Normal then Does(s, r, IGNORE)
            else event.query == [DOT, DOT] ==> Goes(s, r, up)
  {
  }

  /** After other text in Insert mode: into the first child the text names, whenever one is listed. */
  lemma SlashEnters(env: Env, s: Snapshot, event: Event, created: Option<CreatedTree>, i: nat)
    requires event.opcode == OpSlash && s.state.mode == Insert && event.query != [] && event.query != [DOT, DOT]
    requires i < |s.records| && NamesChild(env, s, event.query, s.records[i])
    requires forall j :: 0 <= j < i ==> !NamesChild(env, s, event.query, s.records[j])
    ensures Goes(s, Response(env, s, event, created), s.records[i].target)
  {
    FirstChildAt(env, s, event.query, s.records, i);
  }

  /** Otherwise the slash is put after the text and the list emptied. */
  lemma SlashMisses(env: Env, s: Snapshot, event: Event, created: Option<CreatedTree>)
    requires event.opcode == OpSlash && s.state.mode == Insert && event.query != [] && event.query != [DOT, DOT]
    requires forall r :: r in s.records ==> !NamesChild(env, s, event.query, r)
    ensures Does(s, Response(env, s, event, created), NO_EFFECT.(put := "/", invalidPath := true))
  {
    FirstChildListed(env, s.state, s.records, event.query);
  }

  lemma {:induction false} FirstChildAt(env: Env, s: Snapshot, query: Bytes, records: seq<Record>, i: nat)
    requires i < |records| && NamesChild(env, s, query, records[i])
    requires forall j :: 0 <= j < i ==> !NamesChild(env, s, query, records[j])
    ensures FirstChild(env, s.state, records, query) == Some(records[i])
  {
    assert NamesChild(env, s, query, records[0]) <==> i == 0;
    if i > 0 {
      assert !ImmediateChild(env, s.state, records[0], query);
      FirstChildAt(env, s, query, records[1..], i - 1);
    }
  }

  // ----- records

  /** i is where the item's line stands first in the listing. */
  ghost predicate StandsAt(env: Env, s: Snapshot, item: Bytes, i: nat) {
    && env.parse(item).Ok? && i < |s.records| && Codec.Print(s.records[i].Wire()) == item
    && forall j :: 0 <= j < i ==> Codec.Print(s.records[j].Wire()) != item
  }

  ghost predicate Unlisted(env: Env, s: Snapshot, item: Bytes) {
    env.parse(item).Err? || forall r :: r in s.records ==> Codec.Print(r.Wire()) != item
  }

  lemma ResolvesAt(env: Env, s: Snapshot, item: Bytes, i: nat)
    requires StandsAt(env, s, item, i)
    ensures ResolveRecord(env, s, item) == Ok(s.records[i])
  {
    var lines := Codec.Lines(s.records);
    assert lines[i] == item && forall j :: 0 <= j < i ==> lines[j] != item;
    assert Merge.FirstLine(lines, item) == i;
  }

  lemma ResolvesNot(env: Env, s: Snapshot, item: Bytes)
    requires Unlisted(env, s, item)
    ensures ResolveRecord(env, s, item) == Err(UnknownRecord)
  {
  }

  /** A record leads somewhere when its target is of its own kind. */
  predicate Leads(r: Record) {
    r.target.kind == (if r.kind == KindVirtual then LocDrives else LocFilesystem)
    && (r.kind == KindVirtual ==> r.target.path == [])
  }

  /** The picker that changes directory enters everything but files; the one that copies enters directories, drives and
      the list of drives. */
  predicate Enters(picker: Picker, kind: Kind) {
    if picker == PickerCD then kind != KindFile else kind in {KindDirectory, KindDrive, KindVirtual}
  }

  /** Forward enters the first record with the item's line, if the picker may; everything else is refused alike. */
  lemma ForwardDoes(env: Env, s: Snapshot, event: Event, created: Option<CreatedTree>, i: nat)
    requires event.opcode == OpForward && (s.state.mode == Add || StandsAt(env, s, event.item, i))
    ensures var r := Response(env, s, event, created);
            && (s.state.mode == Add ==> Does(s, r, IGNORE))
            && (s.state.mode != Add ==>
                  if event.item != [] && Enters(s.state.picker, s.records[i].kind) && Leads(s.records[i])
                  then Goes(s, r, s.records[i].target) else r == Err(InvalidNavigation))
  {
    if s.state.mode != Add { ResolvesAt(env, s, event.item, i); }
  }

  lemma ForwardRefuses(env: Env, s: Snapshot, event: Event, created: Option<CreatedTree>)
    requires event.opcode == OpForward && s.state.mode != Add && (event.item == [] || Unlisted(env, s, event.item))
    ensures Response(env, s, event, created) == Err(InvalidNavigation)
  {
    if event.item != [] { ResolvesNot(env, s, event.item); }
  }

  // ----- Enter

  /** In Add mode: a usable relative path is created and entered, if the creation succeeds; the prompt shows an error
      otherwise, and nothing else changes. */
  lemma EnterAdds(env: Env, s: Snapshot, event: Event, created: Option<CreatedTree>)
    requires event.opcode == OpEnter && s.state.mode == Add
    ensures var r := Response(env, s, event, created);
            var usable := s.state.location.kind == LocFilesystem && event.query != [] && event.query[0] != SLASH
                          && [DOT, DOT] !in Fields(event.query);
            if usable && created.Some? then Goes(s, r, created.value.target) && r.value.created == created
            else r == Ok(Proposal(s.generation, s.state.(addError := true, prompt := "[A!] "), None,
                                  NO_EFFECT.(prompt := "[A!] ", errorPrompt := true), None))
  {
  }

  /** Outside Add mode: Enter opens a virtual record and accepts anything else that is listed, or nothing at all. */
  lemma EnterChooses(env: Env, s: Snapshot, event: Event, created: Option<CreatedTree>, i: nat)
    requires event.opcode == OpEnter && s.state.mode != Add && (event.item == [] || StandsAt(env, s, event.item, i))
    ensures var r := Response(env, s, event, created);
            if event.item == [] || s.records[i].kind != KindVirtual then Does(s, r, NO_EFFECT.(accept := true))
            else if Leads(s.records[i]) then Goes(s, r, Location(LocDrives, []))
            else r == Err(InvalidNavigation)
  {
    if event.item != [] { ResolvesAt(env, s, event.item, i); }
  }

  lemma EnterRefuses(env: Env, s: Snapshot, event: Event, created: Option<CreatedTree>)
    requires event.opcode == OpEnter && s.state.mode != Add && event.item != [] && Unlisted(env, s, event.item)
    ensures Response(env, s, event, created) == Err(UnknownRecord)
  {
    ResolvesNot(env, s, event.item);
  }

  // ----- what the header says

  /** path without the slashes at its end. */
  predicate Stripped(path: Bytes, core: Bytes) {
    && core <= path && (core == [] || core[|core| - 1] != SLASH)
    && forall i :: |core| <= i < |path| ==> path[i] == SLASH
  }

  lemma {:induction false} TrimStrips(path: Bytes)
    ensures Stripped(path, TrimSlashes(path))
  {
    if path != [] && path[|path| - 1] == SLASH { TrimStrips(path[..|path| - 1]); }
  }

  /** shown is how a path reads from home: relative to "~" when it lies there, else as it is. */
  predicate ReadsFrom(env: Env, home: Location, path: Bytes, shown: Bytes) {
    var relative := if home.kind == LocFilesystem && IsAbs(home.path) && IsAbs(path) then env.rel(home.path, path)
                    else None;
    if relative.None? || relative.value == [DOT, DOT] || [DOT, DOT, SLASH] <= relative.value then shown == path
    else if relative.value == [DOT] then shown == [TILDE]
    else shown == [TILDE, SLASH] + relative.value
  }

  /** The header, its escapes read back, is the place as read from home with one slash at its end; so two places on disk
      with the same header read the same but for trailing slashes. */
  lemma HeaderNames(env: Env, place: Location, home: Location, shown: Bytes, core: Bytes)
    requires place.kind == LocFilesystem && ReadsFrom(env, home, place.path, shown) && Stripped(shown, core)
    ensures Display.Unescape(PromptDisplayHome(env, place, home)) == core + [SLASH]
  {
    TrimStrips(shown);
    StrippedOnce(shown, core, TrimSlashes(shown));
    Display.UnescapeThen(env.graphic, core, [SLASH]);
    assert [SLASH][1..] == [] && Display.Unescape([SLASH]) == [SLASH];
  }

  lemma StrippedOnce(path: Bytes, a: Bytes, b: Bytes)
    requires Stripped(path, a) && Stripped(path, b)
    ensures a == b
  {
    assert a != [] ==> path[|a| - 1] != SLASH;
    assert b != [] ==> path[|b| - 1] != SLASH;
    assert |a| == |b|;
  }

  lemma DrivesHeader(env: Env, place: Location, home: Location)
    requires place.kind == LocDrives
    ensures PromptDisplayHome(env, place, home) == [68, 114, 105, 118, 101, 115, SLASH]
  {
  }

  // ----- in all

  /** Only Enter outside Add mode accepts, with the session left as it is, and exactly Escape in Normal mode aborts. */
  lemma OnlyEnterAccepts(env: Env, s: Snapshot, event: Event, created: Option<CreatedTree>)
    ensures var r := Response(env, s, event, created);
            r.Ok? ==>
              && (r.value.effect.accept ==> event.opcode == OpEnter && s.state.mode != Add && r.value.state == s.state)
              && (r.value.effect.abort <==> event.opcode == OpEscape && s.state.mode == Normal)
  {
  }
}
