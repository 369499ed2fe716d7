/** Effects as fzf actions (internal/fzf/action.go), what those actions do to fzf's key bindings and list, and the
    coordinator's suppression of restores while zoxide may still publish. */
module Render {
  import opened Basics
  import opened Protocol
  import opened Events

  // ----- key groups

  /** The groups of keys that are bound and unbound together. */
  datatype Groups = Groups(navigation: set<string>, paging: set<string>, normal: set<string>)

  const CHANGE := "change"

  const NAVIGATION_KEYS := ["ctrl-l", "tab", "right", "ctrl-h", "left", "/", "~"]
  const LIST_PAGING_KEYS := ["ctrl-u", "ctrl-d"]
  const NORMAL_COMMAND_KEYS := ["h", "j", "k", "l", "i", "a", "q", "space", "g", "G", "jump"]
  const NORMAL_PAGING_KEYS := [",", "."]
  const ACTIVE_PRINTABLE := {'h', 'j', 'k', 'l', 'i', 'a', 'q', 'g', 'G', '/', '~', ',', '.'}

  function AsSet(keys: seq<string>): set<string> { set i | 0 <= i < |keys| :: keys[i] }

  /** buildNormalPrintableKeys: every printable character without a binding of its own. */
  function NormalPrintableKeys(): set<string> {
    set c: char | '!' <= c <= '~' && c !in ACTIVE_PRINTABLE :: [c]
  }

  function PickerGroups(): Groups {
    Groups(AsSet(NAVIGATION_KEYS), AsSet(LIST_PAGING_KEYS),
           AsSet(NORMAL_COMMAND_KEYS) + AsSet(NORMAL_PAGING_KEYS) + NormalPrintableKeys())
  }

  /** Keys bound in every mode. */
  const STATIC_KEYS := {"enter", "esc"}

  predicate Separate(g: Groups) {
    && g.navigation != {}
    && g.navigation !! g.normal && g.paging !! g.normal
    && STATIC_KEYS !! (g.navigation + g.paging + g.normal)
    && CHANGE !in STATIC_KEYS + g.navigation + g.paging + g.normal
  }

  lemma PickerGroupsSeparate()
    ensures Separate(PickerGroups())
  {
    var g := PickerGroups();
    assert NAVIGATION_KEYS[1] in g.navigation;
    forall k | k in g.normal ensures Apart(k) {
      if k in NormalPrintableKeys() {
        PrintableApart(k);
      } else if k in AsSet(NORMAL_COMMAND_KEYS) {
        CommandApart(k);
      } else {
        PagingApart(k);
      }
    }
  }

  /** k is no key of the other groups. */
  predicate Apart(k: string) { k !in NAVIGATION_KEYS && k !in LIST_PAGING_KEYS && k !in STATIC_KEYS && k != CHANGE }

  lemma PrintableApart(k: string)
    requires k in NormalPrintableKeys()
    ensures Apart(k)
  {
    var c: char :| '!' <= c <= '~' && c !in ACTIVE_PRINTABLE && k == [c];
    assert |k| == 1 && k[0] == c;
  }

  lemma CommandApart(k: string)
    requires k in AsSet(NORMAL_COMMAND_KEYS)
    ensures Apart(k)
  {
    var i :| 0 <= i < |NORMAL_COMMAND_KEYS| && NORMAL_COMMAND_KEYS[i] == k;
  }

  lemma PagingApart(k: string)
    requires k in AsSet(NORMAL_PAGING_KEYS)
    ensures Apart(k)
  {
    var i :| 0 <= i < |NORMAL_PAGING_KEYS| && NORMAL_PAGING_KEYS[i] == k;
  }

  // ----- rendering

  /** fzf's actions; arming and disarming is rebind(change) and unbind(change). */
  datatype Action =
    | EnableSearch | DisableSearch | Rebind(keys: set<string>) | Unbind(unbound: set<string>) | ArmChange | DisarmChange
    | ClearMulti | Reload(generation: nat, event: nat) | ClearQuery | Put(text: string) | ReloadEmpty | Wait
    | PreviewInvalid | PreviewDefault | AbortPicker | AcceptEnter | IgnoreKey | First
    | ChangePrompt(prompt: string) | ChangeHeader(header: Bytes)

  /** Whether renderEffect accepts an effect: its rejections, negated. */
  predicate Renderable(e: Effect) {
    && (e.invalidPath ==> e.put == "/")
    && (e.reload == 0 || e.restore == 0)
    && e.search in ["", "on", "off"]
    && e.put in ["", "/", "~"]
    && e.prompt in ["", "[I] ", "[N] ", "[A] ", "[A!] "]
    && forall i :: 0 <= i < |e.header| ==> e.header[i] !in [CR, LF, NUL]
  }

  // ----- what fzf shows

  /** The list fzf holds: the initial stream, one loaded generation, or nothing after an invalid path. */
  datatype Listing = Streamed | Loaded(generation: nat, event: nat) | Emptied

  datatype Ending = Accepted | Aborted

  /** The input line and what else of fzf is text or user input; put inserts at the end of the query. */
  datatype Line = Line(
    searching: bool, prompt: string, header: Bytes, query: string, marked: bool, ended: Option<Ending>)

  /** settled: no reload is still in progress. */
  datatype View = View(bound: set<string>, listing: Listing, settled: bool, invalidPreview: bool, line: Line)

  function PerformLine(l: Line, a: Action): Line {
    match a
    case EnableSearch => l.(searching := true)
    case DisableSearch => l.(searching := false)
    case ChangePrompt(prompt) => l.(prompt := prompt)
    case ChangeHeader(header) => l.(header := header)
    case ClearQuery => l.(query := "")
    case Put(text) => l.(query := l.query + text)
    case ClearMulti => l.(marked := false)
    case AbortPicker => l.(ended := if l.ended.Some? then l.ended else Some(Aborted))
    case AcceptEnter => l.(ended := if l.ended.Some? then l.ended else Some(Accepted))
    case _ => l
  }

  /** Arming `change` while a reload is in progress is lost: the reload's own result fires the binding. */
  function Perform(v: View, a: Action): View {
    match a
    case Rebind(keys) => v.(bound := v.bound + keys)
    case Unbind(keys) => v.(bound := v.bound - keys)
    case ArmChange => if v.settled then v.(bound := v.bound + {CHANGE}) else v
    case DisarmChange => v.(bound := v.bound - {CHANGE})
    case Reload(generation, event) => v.(listing := Loaded(generation, event), settled := false)
    case ReloadEmpty => v.(listing := Emptied, settled := false)
    case Wait => v.(settled := true)
    case PreviewInvalid => v.(invalidPreview := true)
    case PreviewDefault => v.(invalidPreview := false)
    case _ => v.(line := PerformLine(v.line, a))
  }

  function PerformAll(v: View, actions: seq<Action>): View {
    if actions == [] then v else Perform(PerformAll(v, actions[..|actions| - 1]), actions[|actions| - 1])
  }

  // ----- the view an effect asks for

  function BoundAfter(g: Groups, bound: set<string>, rebind: Option<Mode>): set<string> {
    match rebind
    case None => bound
    case Some(Insert) => bound + (g.navigation + g.paging) - g.normal
    case Some(Normal) => bound + (g.navigation + g.paging + g.normal)
    case Some(Add) => bound - (g.navigation + g.paging + g.normal)
  }

  function LineAfter(l: Line, e: Effect): Line {
    Line(SearchAfter(l.searching, e.search),
         if e.prompt != "" then e.prompt else l.prompt,
         if e.header != [] then e.header else l.header,
         (if e.clearQuery then "" else l.query) + e.put,
         l.marked && !e.clearMulti,
         EndedAfter(l.ended, e))
  }

  function SearchAfter(searching: bool, search: string): bool {
    if search == "on" then true else if search == "off" then false else searching
  }

  function EndedAfter(ended: Option<Ending>, e: Effect): Option<Ending> {
    if ended.Some? then ended else if e.abort then Some(Aborted) else if e.accept then Some(Accepted) else None
  }

  /** The list and the `change` binding: a generation, the empty list of an invalid path, or what was there. */
  function Relisted(v: View, e: Effect, eventID: nat): View {
    if e.reload != 0 || e.restore != 0 then
      View(v.bound - {CHANGE},
           if e.invalidPath then Emptied else Loaded(if e.restore != 0 then e.restore else e.reload, eventID),
           true, false, v.line)
    else if e.invalidPath then View(v.bound + {CHANGE}, Emptied, true, true, v.line)
    else v
  }

  function After(g: Groups, v: View, e: Effect, eventID: nat): View {
    Relisted(v.(bound := BoundAfter(g, v.bound, e.rebind), line := LineAfter(v.line, e)), e, eventID)
  }

  // ----- the renderer

  /** One more action. */
  method Push(actions: seq<Action>, a: Action, ghost v: View) returns (more: seq<Action>)
    ensures PerformAll(v, more) == Perform(PerformAll(v, actions), a)
  {
    more := actions + [a];
    assert more[..|actions|] == actions;
  }

  /** rebind and unbind for one mode. */
  method RenderKeys(g: Groups, actions: seq<Action>, mode: Mode, ghost v: View) returns (more: seq<Action>)
    ensures var w := PerformAll(v, actions); PerformAll(v, more) == w.(bound := BoundAfter(g, w.bound, Some(mode)))
  {
    more := actions;
    if mode == Insert || mode == Normal {
      var keys := if mode == Insert then g.navigation + g.paging else g.navigation + g.paging + g.normal;
      more := Push(more, Rebind(keys), v);
    }
    if mode == Insert || mode == Add {
      more := Push(more, Unbind(if mode == Insert then g.normal else g.navigation + g.paging + g.normal), v);
    }
  }

  /** The reloads that replace the list with a generation. */
  method RenderReloads(actions: seq<Action>, e: Effect, eventID: nat, ghost v: View) returns (more: seq<Action>)
    ensures var w := PerformAll(v, actions);
            PerformAll(v, more) == if e.restore != 0 then w.(listing := Loaded(e.restore, eventID), settled := false)
                                   else if e.reload != 0 then w.(listing := Loaded(e.reload, eventID), settled := false)
                                   else w
  {
    more := actions;
    if e.reload != 0 {
      more := Push(more, Reload(e.reload, eventID), v);
    }
    if e.restore != 0 {
      more := Push(more, Reload(e.restore, eventID), v);
    }
  }

  /** The empty list of an invalid path, with `change` armed only after it. */
  method RenderInvalid(actions: seq<Action>, ghost v: View) returns (more: seq<Action>)
    ensures var w := PerformAll(v, actions);
            PerformAll(v, more) == View(w.bound + {CHANGE}, Emptied, true, true, w.line)
  {
    more := Push(actions, ReloadEmpty, v);
    more := Push(more, Wait, v);
    more := Push(more, PreviewInvalid, v);
    more := Push(more, ArmChange, v);
  }

  /** What ends a reload: wait for it, then restore the preview and disarm `change`. */
  method RenderSettle(actions: seq<Action>, e: Effect, ghost v: View) returns (more: seq<Action>)
    ensures var w := PerformAll(v, actions);
            PerformAll(v, more) == View(w.bound - {CHANGE}, w.listing, true, false, w.line)
  {
    more := Push(actions, Wait, v);
    if e.reload != 0 {
      more := Push(more, First, v);
    }
    more := Push(more, PreviewDefault, v);
    more := Push(more, DisarmChange, v);
  }

  method RenderSearch(e: Effect, ghost v: View) returns (actions: seq<Action>)
    ensures PerformAll(v, actions) == v.(line := v.line.(searching := SearchAfter(v.line.searching, e.search)))
  {
    actions := [];
    if e.search == "on" {
      actions := Push(actions, EnableSearch, v);
    } else if e.search == "off" {
      actions := Push(actions, DisableSearch, v);
    }
  }

  method RenderEdits(actions: seq<Action>, e: Effect, ghost v: View) returns (more: seq<Action>)
    ensures var w := PerformAll(v, actions);
            PerformAll(v, more) == w.(line := w.line.(query := (if e.clearQuery then "" else w.line.query) + e.put))
  {
    more := actions;
    if e.clearQuery {
      more := Push(more, ClearQuery, v);
    }
    if e.put != "" {
      more := Push(more, Put(e.put), v);
    }
  }

  method RenderOutcome(actions: seq<Action>, e: Effect, ghost v: View) returns (more: seq<Action>)
    ensures var w := PerformAll(v, actions);
            PerformAll(v, more) == w.(line := w.line.(ended := EndedAfter(w.line.ended, e)))
  {
    more := actions;
    if e.abort {
      more := Push(more, AbortPicker, v);
    }
    if e.accept {
      more := Push(more, AcceptEnter, v);
    }
    if e.ignore {
      more := Push(more, IgnoreKey, v);
    }
  }

  method RenderText(actions: seq<Action>, e: Effect, ghost v: View) returns (more: seq<Action>)
    ensures var w := PerformAll(v, actions);
            PerformAll(v, more) == w.(line := w.line.(prompt := if e.prompt != "" then e.prompt else w.line.prompt,
                                                      header := if e.header != [] then e.header else w.line.header))
  {
    more := actions;
    if e.prompt != "" {
      more := Push(more, ChangePrompt(e.prompt), v);
    }
    if e.header != [] {
      more := Push(more, ChangeHeader(e.header), v);
    }
  }

  /** Search, keys, marks and the reload of a generation. */
  method RenderFront(g: Groups, e: Effect, eventID: nat, ghost v: View) returns (actions: seq<Action>)
    ensures PerformAll(v, actions) ==
              View(BoundAfter(g, v.bound, e.rebind),
                   if e.restore != 0 then Loaded(e.restore, eventID)
                   else if e.reload != 0 then Loaded(e.reload, eventID) else v.listing,
                   v.settled && e.reload == 0 && e.restore == 0, v.invalidPreview,
                   v.line.(searching := SearchAfter(v.line.searching, e.search),
                           marked := v.line.marked && !e.clearMulti))
  {
    actions := RenderSearch(e, v);
    if e.rebind.Some? {
      actions := RenderKeys(g, actions, e.rebind.value, v);
    }
    if e.clearMulti {
      actions := Push(actions, ClearMulti, v);
    }
    actions := RenderReloads(actions, e, eventID, v);
  }

  /** Query edits and the invalid-path view. */
  method RenderMiddle(actions: seq<Action>, e: Effect, ghost v: View) returns (more: seq<Action>)
    ensures var w := PerformAll(v, actions);
            var x := if e.invalidPath then View(w.bound + {CHANGE}, Emptied, true, true, w.line) else w;
            PerformAll(v, more) == x.(line := w.line.(query := (if e.clearQuery then "" else w.line.query) + e.put))
  {
    more := RenderEdits(actions, e, v);
    if e.invalidPath {
      more := RenderInvalid(more, v);
    }
  }

  /** Query edits, the invalid-path view, outcomes, what ends a reload, prompt and header. */
  method RenderBack(actions: seq<Action>, e: Effect, ghost v: View) returns (more: seq<Action>)
    ensures var w := PerformAll(v, actions);
            var x := if e.invalidPath then View(w.bound + {CHANGE}, Emptied, true, true, w.line) else w;
            var y := if e.reload != 0 || e.restore != 0
                     then View(x.bound - {CHANGE}, x.listing, true, false, x.line) else x;
            PerformAll(v, more) == y.(line := LineAfter(w.line, e.(search := "", clearMulti := false)))
  {
    more := RenderMiddle(actions, e, v);
    more := RenderEnd(more, e, v);
  }

  /** Outcomes, what ends a reload, prompt and header. */
  method RenderEnd(actions: seq<Action>, e: Effect, ghost v: View) returns (more: seq<Action>)
    ensures var w := PerformAll(v, actions);
            var y := if e.reload != 0 || e.restore != 0
                     then View(w.bound - {CHANGE}, w.listing, true, false, w.line) else w;
            PerformAll(v, more) ==
              y.(line := w.line.(prompt := if e.prompt != "" then e.prompt else w.line.prompt,
                                 header := if e.header != [] then e.header else w.line.header,
                                 ended := EndedAfter(w.line.ended, e)))
  {
    more := RenderOutcome(actions, e, v);
    if e.reload != 0 || e.restore != 0 {
      more := RenderSettle(more, e, v);
    }
    more := RenderText(more, e, v);
  }

  method RenderAccepted(g: Groups, e: Effect, eventID: nat, ghost v: View) returns (actions: seq<Action>)
    requires e.reload == 0 || e.restore == 0
    ensures PerformAll(v, actions) == After(g, v, e, eventID)
  {
    actions := RenderFront(g, e, eventID, v);
    ghost var bound := BoundAfter(g, v.bound, e.rebind);
    assert bound + {CHANGE} - {CHANGE} == bound - {CHANGE};
    actions := RenderBack(actions, e, v);
  }

  /** What the user is left with in w after an effect performed in v: how the picker ends, the query, the marks, the
      prompt and header, and the list, which is a generation loaded for this very event. */
  predicate Leaves(v: View, w: View, e: Effect, eventID: nat) {
    && (v.line.ended.None? ==>
          && (w.line.ended == Some(Aborted) <==> e.abort)
          && (w.line.ended == Some(Accepted) <==> e.accept && !e.abort))
    && (v.line.ended.Some? ==> w.line.ended == v.line.ended)
    && w.line.query == (if e.clearQuery then e.put else v.line.query + e.put)
    && (w.line.marked <==> v.line.marked && !e.clearMulti)
    && w.line.prompt == (if e.prompt == "" then v.line.prompt else e.prompt)
    && w.line.header == (if e.header == [] then v.line.header else e.header)
    && (e.invalidPath ==> w.listing.Emptied?)
    && (!e.invalidPath && e.reload != 0 ==> w.listing == Loaded(e.reload, eventID))
    && (!e.invalidPath && e.restore != 0 ==> w.listing == Loaded(e.restore, eventID))
    && (!e.invalidPath && e.reload == 0 && e.restore == 0 ==>
          w.listing == v.listing && w.invalidPreview == v.invalidPreview && w.settled == v.settled)
  }

  lemma AfterLeaves(g: Groups, v: View, e: Effect, eventID: nat)
    requires e.reload == 0 || e.restore == 0
    ensures Leaves(v, After(g, v, e, eventID), e, eventID)
  {
  }

  /** renderEffect: the rejections, and otherwise actions that lead any view to the one the effect asks for. */
  method RenderEffect(g: Groups, e: Effect, eventID: nat, ghost v: View) returns (actions: Option<seq<Action>>)
    ensures actions.Some? <==> Renderable(e)
    ensures actions.Some? ==> PerformAll(v, actions.value) == After(g, v, e, eventID)
    ensures actions.Some? ==> Leaves(v, PerformAll(v, actions.value), e, eventID)
  {
    if (e.invalidPath && e.put != "/") || (e.reload != 0 && e.restore != 0) {
      return None;
    }
    if e.search != "" && e.search != "on" && e.search != "off" {
      return None;
    }
    if e.put != "" && e.put != "/" && e.put != "~" {
      return None;
    }
    if e.prompt != "" && e.prompt != "[I] " && e.prompt != "[N] " && e.prompt != "[A] " && e.prompt != "[A!] " {
      return None;
    }
    if exists i :: 0 <= i < |e.header| && e.header[i] in [CR, LF, NUL] {
      return None;
    }
    var list := RenderAccepted(g, e, eventID, v);
    AfterLeaves(g, v, e, eventID);
    return Some(list);
  }

  // ----- bindings follow the mode

  function KeysFor(g: Groups, mode: Mode): set<string> {
    match mode
    case Insert => STATIC_KEYS + g.navigation + g.paging
    case Normal => STATIC_KEYS + g.navigation + g.paging + g.normal
    case Add => STATIC_KEYS
  }

  /** The active keys are the mode's, search is on exactly outside Normal mode, the prompt is the session's, `change` is
      armed exactly while the empty invalid-path list is shown, that list is only shown in Insert mode, and no reload is
      in progress. */
  predicate InStep(g: Groups, v: View, state: State) {
    && v.bound == KeysFor(g, state.mode) + (if v.listing.Emptied? then {CHANGE} else {})
    && v.invalidPreview == v.listing.Emptied?
    && (v.listing.Emptied? ==> state.mode == Insert)
    && v.settled
    && v.line.searching == (state.mode != Normal)
    && v.line.prompt == state.prompt
  }

  /** fzf at startup: everything bound, then the start event unbinds the Normal keys and `change`. */
  function StartView(g: Groups, header: Bytes): View {
    View(STATIC_KEYS + g.navigation + g.paging + g.normal + {CHANGE} - (g.normal + {CHANGE}), Streamed, true, false,
         Line(true, "[I] ", header, "", false, None))
  }

  lemma StartInStep(g: Groups, header: Bytes, state: State)
    requires Separate(g) && StateOk(state) && state.mode == Insert
    ensures InStep(g, StartView(g, header), state)
  {
  }

  // ----- from a proposal to what is shown

  /** The effect the actor replies with: a build's generation is stamped as the reload. */
  function Stamped(p: Proposal, generation: nat): Effect {
    if p.build.Some? then p.effect.(reload := generation) else p.effect
  }

  /** suppressActiveRestore: while zoxide may still publish, a change of mode must not reload the list. */
  function Screened(active: bool, opcode: Opcode, e: Effect): Effect {
    if opcode == OpRestoreView || e.restore == 0 || e.reload != 0 || e.accept || e.abort || !active then e
    else e.(restore := 0)
  }

  /** Every effect any event can lead to is accepted by renderEffect. */
  lemma EffectsRender(from: Snapshot, p: Proposal, generation: nat, active: bool, opcode: Opcode)
    requires WellFormed(from, p)
    ensures Renderable(Screened(active, opcode, Stamped(p, generation)))
  {
    assert Navigation(p) ==> forall i :: 0 <= i < |p.effect.header| ==> p.effect.header[i] >= 32;
  }

  lemma ModeBindings(g: Groups, v: View, from: State, to: Mode)
    requires Separate(g) && InStep(g, v, from)
    ensures var bound := BoundAfter(g, v.bound, Some(to));
            bound - {CHANGE} == KeysFor(g, to) && (CHANGE in bound <==> v.listing.Emptied?)
  {
  }

  /** The header names the session's place, and a list that was loaded is the session's current generation. */
  predicate UpToDate(env: Env, v: View, s: Snapshot) {
    v.line.header == Header(env, s.state) && (v.listing.Loaded? ==> v.listing.generation == s.generation)
  }

  predicate Tracks(env: Env, g: Groups, v: View, s: Snapshot) { InStep(g, v, s.state) && UpToDate(env, v, s) }

  /** From from to to by p, with fzf in step before. */
  predicate Proposed(env: Env, g: Groups, v: View, from: Snapshot, p: Proposal, to: Snapshot) {
    && Separate(g) && WellFormed(from, p) && HeaderFollows(env, from, p) && from.generation > 0
    && to.state == p.state && to.generation > 0 && (p.build.None? ==> to.generation == from.generation)
    && Tracks(env, g, v, from)
  }

  lemma ActionKeepsStep(env: Env, g: Groups, v: View, from: Snapshot, p: Proposal, to: Snapshot, active: bool,
                        opcode: Opcode, eventID: nat)
    requires Proposed(env, g, v, from, p, to) && Events.Action(from.state, p) && (v.listing.Emptied? ==> !active)
    ensures Tracks(env, g, After(g, v, Screened(active, opcode, p.effect), eventID), to)
  {
  }

  lemma RebindKeepsStep(env: Env, g: Groups, v: View, from: Snapshot, p: Proposal, to: Snapshot, active: bool,
                        opcode: Opcode, eventID: nat)
    requires Proposed(env, g, v, from, p, to) && (Navigation(p) || ModeChange(from.state, p))
    requires v.listing.Emptied? ==> !active
    ensures Tracks(env, g, After(g, v, Screened(active, opcode, Stamped(p, to.generation)), eventID), to)
  {
    ModeBindings(g, v, from.state, p.state.mode);
  }

  /** One event keeps fzf with the session: bindings, search, prompt, armed `change`, list and header match the new
      snapshot. The only hypothesis on suppression is that an empty list is never shown while restores are suppressed.
      */
  lemma EventKeepsStep(env: Env, g: Groups, v: View, from: Snapshot, p: Proposal, to: Snapshot, active: bool,
                       opcode: Opcode, eventID: nat)
    requires Separate(g) && WellFormed(from, p) && HeaderFollows(env, from, p) && from.generation > 0
    requires to.state == p.state && to.generation > 0 && (p.build.None? ==> to.generation == from.generation)
    requires Tracks(env, g, v, from)
    requires v.listing.Emptied? ==> !active
    ensures Tracks(env, g, After(g, v, Screened(active, opcode, Stamped(p, to.generation)), eventID), to)
  {
    if Events.Action(from.state, p) {
      ActionKeepsStep(env, g, v, from, p, to, active, opcode, eventID);
    } else {
      RebindKeepsStep(env, g, v, from, p, to, active, opcode, eventID);
    }
  }

  /** A change of mode, or a wish to see the session's list again. */
  predicate Returns(from: State, p: Proposal) { p.state.mode != from.mode || p.effect.restore != 0 }

  /** What one event leaves on the screen. A navigation shows the new generation, loaded for this event, with an empty
      query and no marks. Anything else keeps the marks and, unless it clears it, the query; it shows the session's list
      again after a change of mode, except while restores are suppressed, empties it for an invalid path, and otherwise
      leaves it alone. */
  lemma EventShows(g: Groups, v: View, from: Snapshot, p: Proposal, generation: nat, active: bool, opcode: Opcode,
                   eventID: nat)
    requires WellFormed(from, p) && from.generation > 0 && generation > 0
    requires opcode == OpRestoreView ==> p.effect == NO_EFFECT.(restore := from.generation)
    ensures var w := After(g, v, Screened(active, opcode, Stamped(p, generation)), eventID);
            if p.build.Some? then
              w.line.query == "" && !w.line.marked && w.listing == Loaded(generation, eventID)
            else
              && w.line.marked == v.line.marked
              && w.line.query == (if p.effect.clearQuery then "" else v.line.query) + p.effect.put
              && w.listing == (if p.effect.invalidPath then Emptied
                               else if opcode == OpRestoreView || (Returns(from.state, p) && !active)
                               then Loaded(from.generation, eventID) else v.listing)
  {
  }
}
