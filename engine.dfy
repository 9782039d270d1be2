/** The per-session engine: modifier filtering, the punctuation-cycling
    overlay, delegation to the parser, and the default key handling the
    parser falls back on (navigation, paging, digit selection, Backspace
    editing, commit). */
module ZimeEngine {
  import opened Base
  import opened Ui
  import Keys
  import opened ZimeCore

  /** The modifier test at the head of `process_key_event`: Caps Lock
      rejects, Num Lock is dropped, and any host-hotkey bit rejects. The
      surviving mask carries none of these bits. */
  function Screen(mask: bv32): (m: Option<bv32>)
    ensures mask & Keys.LockMask != 0 ==> m.None?
    ensures mask & Keys.LockMask == 0 ==> (m.None? <==> mask & !Keys.Mod2Mask & Keys.HotkeyMask != 0)
    ensures m.Some? ==> m.value == mask & !Keys.Mod2Mask
    ensures m.Some? ==> m.value & (Keys.LockMask | Keys.Mod2Mask | Keys.HotkeyMask) == 0
  {
    if mask & Keys.LockMask != 0 then None
    else
      var m := mask & !Keys.Mod2Mask;
      if m & Keys.HotkeyMask != 0 then None else Some(m)
  }

  /** Whether Num Lock is on never changes the outcome of the test. */
  lemma NumLockIgnored(mask: bv32)
    ensures Screen(mask | Keys.Mod2Mask) == Screen(mask & !Keys.Mod2Mask)
  {
  }

  /** The overlay position after `presses` further presses of its key,
      each of which advances it by one, wrapping around at `n`. */
  function Cycle(rep: nat, n: nat, presses: nat): (r: nat)
    requires rep < n
    ensures r < n
    decreases presses
  {
    if presses == 0 then rep else (Cycle(rep, n, presses - 1) + 1) % n
  }

  /** Python's `x % n` for a positive `n` is the remainder `r` of any
      decomposition `x == q * n + r` with `0 <= r < n`. */
  lemma ModUnique(x: int, n: int, q: int, r: int)
    requires n > 0 && 0 <= r < n && x == q * n + r
    ensures x % n == r
  {
    var d := q - x / n;
    assert d * n == x % n - r;
  }

  /** Advancing a remainder by one is advancing the number by one. */
  lemma ModSucc(x: nat, n: nat)
    requires n > 0
    ensures (x % n + 1) % n == (x + 1) % n
  {
    var q, r := x / n, x % n;
    if r + 1 < n {
      ModUnique(x + 1, n, q, r + 1);
      ModUnique(r + 1, n, 0, r + 1);
    } else {
      ModUnique(x + 1, n, q + 1, 0);
      ModUnique(r + 1, n, 1, 0);
    }
  }

  /** Pressing the overlay key `k` times advances the form by `k` modulo
      the number of forms. */
  lemma {:induction false} CycleIsOffset(rep: nat, n: nat, presses: nat)
    requires rep < n
    ensures Cycle(rep, n, presses) == (rep + presses) % n
    decreases presses
  {
    if presses == 0 {
      ModUnique(rep, n, 0, rep);
    } else {
      var x := rep + presses - 1;
      CycleIsOffset(rep, n, presses - 1);
      assert Cycle(rep, n, presses - 1) == x % n;
      ModSucc(x, n);
      assert x + 1 == rep + presses;
    }
  }

  /** As many presses as there are forms bring the overlay back to the form
      it showed: with three forms, three presses from form 0 return to 0. */
  lemma FullCycleReturns(rep: nat, n: nat)
    requires rep < n
    ensures Cycle(rep, n, n) == rep
  {
    CycleIsOffset(rep, n, n);
    ModUnique(rep + n, n, 1, rep);
  }

  /** Backspace on a composition: a typed open segment is cleared; an empty
      open segment takes the segment before it away; a single empty segment
      cannot be edited. */
  function BackspaceEdit(k: seq<string>): (r: Option<seq<string>>)
    requires |k| >= 1
    ensures r.None? <==> k == [""]
    ensures r.Some? ==> |r.value| >= 1 && r.value[|r.value| - 1] == ""
    ensures k[|k| - 1] != "" ==> r.Some? && |r.value| == |k| && r.value[..|k| - 1] == k[..|k| - 1]
    ensures k[|k| - 1] == "" && |k| >= 2 ==>
              r.Some? && |r.value| == |k| - 1 && r.value[..|k| - 2] == k[..|k| - 2]
  {
    var n := |k|;
    if k[n - 1] != "" then Some(k[..n - 1] + [""])
    else if n < 2 then None
    else Some(k[..n - 2] + [k[n - 1]])
  }

  /** Backspace on `["ni", "hao", ""]` removes `"hao"`. */
  lemma BackspaceDropsClosedSegment()
    ensures BackspaceEdit(["ni", "hao", ""]) == Some(["ni", ""])
  {
    var k := ["ni", "hao", ""];
    assert k[..1] + [k[2]] == ["ni", ""];
  }

  /** The frontend calls `__commit` makes: the composed text, then the
      refresh of the cleared context. */
  function CommitEvents(text: string): seq<Event>
  {
    [Event.CommitString(text)] + EmptyScreen
  }

  /** What `__handle_punct` shows for a punctuation result: the first
      alternative as preedit, or the single string committed. */
  function PunctShown(p: Punct): seq<Event>
  {
    match p
    case Forms(l) => if l == [] then [] else [Event.UpdatePreedit(l[0], 0, |l[0]|)]
    case Text(s) => [Event.CommitString(s)]
    case NoPunct => []
  }

  /** What closing the overlay shows: the preedit is cleared, and unless the
      closing key was Escape or Backspace the current form is committed. */
  function OverlayClose(keycode: int, forms: seq<string>, rep: nat): seq<Event>
    requires rep < |forms|
  {
    [Event.UpdatePreedit("", 0, 0)]
    + (if keycode in {Keys.Escape, Keys.BackSpace} then [] else [Event.CommitString(forms[rep])])
  }

  /** Where a cursor key sends the cursor, before normalisation. */
  function MoveTarget(keycode: int, cursor: int): int
  {
    if keycode == Keys.Home then 0
    else if keycode in {Keys.End, Keys.Escape} then -1
    else if keycode == Keys.Left then cursor - 1
    else cursor + 1
  }

  /** What a paging key shows: a page turn when there are candidates. */
  function Paged(keycode: int, candidates: Option<CandidateList>): seq<Event>
  {
    if !Truthy(candidates) then []
    else if Keys.PagesUp(keycode) then [Event.PageUp] else [Event.PageDown]
  }

  /** The keys the default path gives a meaning of their own while composing. */
  predicate Handled(keycode: int)
  {
    keycode in {Keys.Home, Keys.End, Keys.Escape, Keys.Left, Keys.Right, Keys.Tab,
                Keys.BackSpace, Keys.Space, Keys.Return}
    || Keys.PagesUp(keycode) || Keys.PagesDown(keycode) || Keys.IsDigit(keycode)
  }

  class Engine {
    const ui: Frontend
    const schema: Schema
    const parser: Parser
    const model: Model
    const ctx: Context
    const decode: int -> string    // `KeyEvent.get_char`
    var punct: seq<string>         // the overlay's forms; [] when there is no overlay
    var punctKey: int
    var punctRep: int

    ghost function Repr(): set<object>
    {
      {this, ctx, parser, model}
    }

    /** The engine invariant: a valid context wired to this engine's
        frontend, model and schema; an overlay position inside its forms,
        and a reset key and position when there is no overlay. */
    ghost predicate Valid()
      reads this, ctx
    {
      && ctx.Valid() && ctx.ui == ui && ctx.model == model && ctx.schema == schema
      && (punct == [] ==> punctKey == 0 && punctRep == 0)
      && (punct != [] ==> 0 <= punctRep < |punct|)
    }

    /** The overlay sees this event: it is active, the key is not a Shift
        key and the event is a press. */
    predicate Intercepts(keycode: int, mask: bv32)
      reads this
    {
      punct != [] && keycode != Keys.ShiftL && keycode != Keys.ShiftR && mask & Keys.ReleaseMask == 0
    }

    /** After `__handle_punct` triggered on `p`: a list of forms opens the
        overlay on its first form, a single string leaves the overlay as it was. */
    ghost predicate OverlayAfter(p: Punct, keycode: int, forms0: seq<string>, key0: int, rep0: int)
      reads this
    {
      if p.Forms? then punct == p.forms && punctKey == keycode && punctRep == 0
      else punct == forms0 && punctKey == key0 && punctRep == rep0
    }

    /** After a commit: the context is back to its empty state, the parser
        buffer is cleared and the model learned the composition as it was. */
    ghost predicate Finalised(snap: Snapshot, learned0: seq<Snapshot>)
      reads ctx, parser, model
    {
      ctx.Canonical() && parser.memory == [] && model.learned == learned0 + [snap]
    }

    /** What `__judge` commits: the character of a coined, unmodified key. */
    function Judged(e: KeyEvent): seq<Event>
    {
      if e.coined && e.mask == 0 then [Event.CommitString(decode(e.keycode))] else []
    }

    constructor (ui: Frontend, schema: Schema, parser: Parser, logic: ModelLogic, decode: int -> string)
      requires logic.Sound()
      modifies ui
      ensures Valid() && fresh(ctx) && fresh(model)
      ensures this.ui == ui && this.schema == schema && this.parser == parser && this.decode == decode
      ensures model.logic == logic && model.learned == [] && ctx.Canonical() && punct == []
      ensures ui.trace == old(ui.trace) + EmptyScreen
    {
      var m := new Model(logic);
      var c := new Context(schema, m, ui);
      this.ui, this.schema, this.parser, this.decode := ui, schema, parser, decode;
      model, ctx := m, c;
      punct, punctKey, punctRep := [], 0, 0;
      new;
      UpdateUi();
      CanonicalView(ctx);
    }

    /** `Engine(frontend, name)`: open the schema, create its parser (an
        unregistered parser name raises KeyError before anything is shown),
        then build the engine. */
    static method Open(ui: Frontend, registry: ParserRegistry, config: map<string, string>,
                       logic: ModelLogic, decode: int -> string, name: string)
      returns (r: Outcome<Engine>)
      requires logic.Sound()
      modifies ui
      ensures r.Raise? <==> registry.GetParserClass(OpenSchema(name, config).parserName).Raise?
      ensures r.Raise? ==> r.error == KeyError && ui.trace == old(ui.trace)
      ensures r.Return? ==> var e := r.value;
                && fresh(e.Repr()) && e.Valid() && e.ui == ui && e.decode == decode
                && e.schema == OpenSchema(name, config) && e.ctx.Canonical() && e.punct == []
                && ui.trace == old(ui.trace) + EmptyScreen
    {
      var schema := OpenSchema(name, config);
      var p := registry.Create(schema);
      if p.Raise? {
        return Raise(p.error);
      }
      var e := new Engine(ui, schema, p.value, logic, decode);
      r := Return(e);
    }

    /** `update_ui`. */
    method UpdateUi()
      requires Valid()
      modifies ui
      ensures ui.trace == old(ui.trace) + ctx.View()
    {
      ctx.Refresh();
    }

    /** `process_key_event`. */
    method ProcessKeyEvent(keycode: int, mask: bv32, coined: bool) returns (r: Outcome<bool>)
      requires Valid()
      modifies Repr(), ui
      ensures Valid() && old(ui.trace) <= ui.trace
      // Caps Lock and host hotkeys: rejected with no effect.
      ensures Screen(mask).None? ==>
                r == Return(false) && unchanged(this, ctx, parser, model) && ui.trace == old(ui.trace)
      // Another press of the overlay key shows the next form.
      ensures Screen(mask).Some? && old(Intercepts(keycode, Screen(mask).value)) && keycode == old(punctKey) ==>
                && r == Return(true) && unchanged(ctx, parser, model)
                && punct == old(punct) && punctKey == old(punctKey)
                && punctRep == Cycle(old(punctRep), |punct|, 1)
                && ui.trace == old(ui.trace) + [Event.UpdatePreedit(punct[punctRep], 0, |punct[punctRep]|)]
      // Any other press closes the overlay; Escape, Backspace, Space and Return end there.
      ensures Screen(mask).Some? && old(Intercepts(keycode, Screen(mask).value)) && keycode != old(punctKey) ==>
                old(ui.trace) + old(OverlayClose(keycode, punct, punctRep)) <= ui.trace
      ensures Screen(mask).Some? && old(Intercepts(keycode, Screen(mask).value)) && keycode != old(punctKey)
              && keycode in {Keys.Escape, Keys.BackSpace, Keys.Space, Keys.Return} ==>
                && r == Return(true) && unchanged(ctx, parser, model)
                && punct == [] && punctKey == 0 && punctRep == 0
                && ui.trace == old(ui.trace) + old(OverlayClose(keycode, punct, punctRep))
      // Everything else reaches the parser, with the Num-Lock-free mask.
      ensures Screen(mask).Some? && old(ReachesParser(keycode, Screen(mask).value)) ==>
                var e := Keys.KeyEvent(keycode, Screen(mask).value, coined);
                var react := parser.cls.react(e, old(ctx.Snap()), old(parser.memory));
                var shown := old(if Intercepts(keycode, Screen(mask).value)
                                 then OverlayClose(keycode, punct, punctRep) else []);
                && (react.step.Reject? ==>
                      r == Return(false) && unchanged(ctx, model) && ui.trace == old(ui.trace) + shown)
                && (react.step.Accept? ==>
                      r == Return(true) && unchanged(ctx, model) && ui.trace == old(ui.trace) + shown)
                && (react.step.Edit? ==>
                      && r == Return(true) && unchanged(model)
                      && ctx.Updated(react.step.closed + [react.step.open], old(ctx.Snap()))
                      && ui.trace == old(ui.trace) + shown + ctx.View())
                && (!react.step.Defer? ==> parser.memory == react.memory)
                // The overlay the key closed stays closed; an overlay it passed by stays as it was.
                && (!react.step.Defer? && old(Intercepts(keycode, Screen(mask).value)) ==>
                      punct == [] && punctKey == 0 && punctRep == 0)
                && (!react.step.Defer? && !old(Intercepts(keycode, Screen(mask).value)) ==>
                      punct == old(punct) && punctKey == old(punctKey) && punctRep == old(punctRep))
    {
      var screened := Screen(mask);
      if screened.None? {
        return Return(false);
      }
      var m := screened.value;
      var done := Overlay(keycode, m);
      if done {
        return Return(true);
      }
      r := Dispatch(Keys.KeyEvent(keycode, m, coined));
    }

    /** The event passes the overlay and goes on to the parser. */
    predicate ReachesParser(keycode: int, mask: bv32)
      reads this
    {
      !Intercepts(keycode, mask)
      || (keycode != punctKey && keycode !in {Keys.Escape, Keys.BackSpace, Keys.Space, Keys.Return})
    }

    /** The overlay block of `process_key_event`; `done` says the event ended there. */
    method Overlay(keycode: int, mask: bv32) returns (done: bool)
      requires Valid()
      modifies this, ui
      ensures Valid()
      ensures done <==> !old(ReachesParser(keycode, mask))
      ensures !old(Intercepts(keycode, mask)) ==> unchanged(this) && ui.trace == old(ui.trace)
      ensures old(Intercepts(keycode, mask)) && keycode == old(punctKey) ==>
                && punct == old(punct) && punctKey == old(punctKey)
                && punctRep == Cycle(old(punctRep), |punct|, 1)
                && ui.trace == old(ui.trace) + [Event.UpdatePreedit(punct[punctRep], 0, |punct[punctRep]|)]
      ensures old(Intercepts(keycode, mask)) && keycode != old(punctKey) ==>
                && punct == [] && punctKey == 0 && punctRep == 0
                && ui.trace == old(ui.trace) + old(OverlayClose(keycode, punct, punctRep))
    {
      done := false;
      if Intercepts(keycode, mask) {
        if keycode == punctKey {
          punctRep := (punctRep + 1) % |punct|;
          var form := punct[punctRep];
          ui.UpdatePreedit(form, 0, |form|);
          return true;
        }
        var form := punct[punctRep];
        punct, punctKey, punctRep := [], 0, 0;
        ui.UpdatePreedit("", 0, 0);
        if keycode in {Keys.Escape, Keys.BackSpace} {
          return true;
        }
        ui.CommitString(form);
        if keycode in {Keys.Space, Keys.Return} {
          return true;
        }
      }
    }

    /** `self.__parser.process(event, ctx, fallback)`, with the parser's
        reaction carried out. */
    method Dispatch(e: KeyEvent) returns (r: Outcome<bool>)
      requires Valid()
      modifies Repr(), ui
      ensures Valid() && old(ui.trace) <= ui.trace
      ensures var react := parser.cls.react(e, old(ctx.Snap()), old(parser.memory));
              && (react.step.Reject? ==>
                    r == Return(false) && unchanged(this, ctx, model) && ui.trace == old(ui.trace))
              && (react.step.Accept? ==>
                    r == Return(true) && unchanged(this, ctx, model) && ui.trace == old(ui.trace))
              && (react.step.Edit? ==>
                    && r == Return(true) && unchanged(this, model)
                    && ctx.Updated(react.step.closed + [react.step.open], old(ctx.Snap()))
                    && ui.trace == old(ui.trace) + ctx.View())
              && (!react.step.Defer? ==> parser.memory == react.memory)
    {
      var step := parser.Process(e, ctx.Snap());
      match step
      case Reject =>
        r := Return(false);
      case Accept =>
        r := Return(true);
      case Edit(closed, open) =>
        ctx.keywords := closed + [open];
        ctx.UpdateKeywords();
        r := Return(true);
      case Defer =>
        r := Process(e);
    }

    /** `__judge`: a coined key is handled, and committed as its character
        when no modifier is held; any other key is not handled. */
    method Judge(e: KeyEvent) returns (handled: bool)
      modifies ui
      ensures handled == e.coined
      ensures ui.trace == old(ui.trace) + Judged(e)
    {
      if e.coined {
        if e.mask == 0 {
          ui.CommitString(decode(e.keycode));
        }
        return true;
      }
      return false;
    }

    /** `__process`, the fallback the parser hands events back to. */
    method Process(e: KeyEvent) returns (r: Outcome<bool>)
      requires Valid()
      modifies Repr(), ui
      ensures Valid() && old(ui.trace) <= ui.trace
      // Nothing typed: punctuation, else the key's own character.
      ensures old(ctx.IsEmpty()) && !old(parser.CheckPunct(e)).Truthy() ==>
                && r == Return(e.coined) && unchanged(this, ctx, parser, model)
                && ui.trace == old(ui.trace) + Judged(e)
      ensures old(ctx.IsEmpty()) && old(parser.CheckPunct(e)).Truthy() ==>
                && r == Return(true) && unchanged(ctx, parser, model)
                && OverlayAfter(old(parser.CheckPunct(e)), e.keycode, old(punct), old(punctKey), old(punctRep))
                && ui.trace == old(ui.trace) + PunctShown(old(parser.CheckPunct(e)))
      // Composing: releases are swallowed.
      ensures !old(ctx.IsEmpty()) && e.mask & Keys.ReleaseMask != 0 ==>
                r == Return(true) && unchanged(this, ctx, parser, model) && ui.trace == old(ui.trace)
      // Composing: cursor movement.
      ensures !old(ctx.IsEmpty()) && e.mask & Keys.ReleaseMask == 0
              && e.keycode in {Keys.Home, Keys.End, Keys.Escape, Keys.Left, Keys.Right, Keys.Tab} ==>
                && r == Return(true) && unchanged(this, parser, model)
                && ctx.keywords == old(ctx.keywords) && ctx.preedit == old(ctx.preedit)
                && ctx.candidates == old(ctx.candidates) && ctx.selection == old(ctx.selection)
                && ctx.auxString == old(ctx.auxString)
                && ctx.cursor == Normalize(ctx.keywords, schema.autoPrompt, MoveTarget(e.keycode, old(ctx.cursor)))
                && ui.trace == old(ui.trace) + ctx.View()
      // Composing: paging, only when there are candidates, always handled.
      ensures !old(ctx.IsEmpty()) && e.mask & Keys.ReleaseMask == 0
              && (Keys.PagesUp(e.keycode) || Keys.PagesDown(e.keycode)) ==>
                && r == Return(true) && unchanged(this, ctx, parser, model)
                && ui.trace == old(ui.trace) + Paged(e.keycode, old(ctx.GetCandidates()))
      // Composing: a digit picks a candidate on the current page.
      ensures !old(ctx.IsEmpty()) && e.mask & Keys.ReleaseMask == 0 && Keys.IsDigit(e.keycode) ==>
                && unchanged(this, parser, model)
                && (!old(Truthy(ctx.GetCandidates())) ==>
                      r == Return(true) && unchanged(ctx) && ui.trace == old(ui.trace))
                && (old(Truthy(ctx.GetCandidates())) ==>
                      var pick := Pick(old(ctx.GetCandidates()), ui.candidateIndex(e.keycode - Keys.Digit1));
                      && (pick.Raise? ==> r == Raise(pick.error) && unchanged(ctx) && ui.trace == old(ui.trace))
                      && (pick.Return? ==>
                            && r == Return(true)
                            && ctx.Selected(old(ctx.Snap()), pick.value)
                            && ui.trace == old(ui.trace) + ctx.View()))
      // Composing: Backspace edits the segments.
      ensures !old(ctx.IsEmpty()) && e.mask & Keys.ReleaseMask == 0 && e.keycode == Keys.BackSpace ==>
                && r == Return(true) && unchanged(this, parser, model)
                && ctx.Updated(BackspaceEdit(old(ctx.keywords)).value, old(ctx.Snap()))
                && ui.trace == old(ui.trace) + ctx.View()
      // Composing: Space and Return commit.
      ensures !old(ctx.IsEmpty()) && e.mask & Keys.ReleaseMask == 0 && e.keycode in {Keys.Space, Keys.Return} ==>
                && r == Return(true) && unchanged(this)
                && Finalised(old(ctx.Snap()), old(model.learned)) && ctx.IsEmpty()
                && ui.trace == old(ui.trace) + CommitEvents(old(ctx.GetPreedit()))
      // Composing: any other key is swallowed, committing first if it is punctuation.
      ensures !old(ctx.IsEmpty()) && e.mask & Keys.ReleaseMask == 0 && !Handled(e.keycode) ==>
                && r == Return(true)
                && (!old(parser.CheckPunct(e)).Truthy() ==>
                      unchanged(this, ctx, parser, model) && ui.trace == old(ui.trace))
                && (old(parser.CheckPunct(e)).Truthy() ==>
                      && Finalised(old(ctx.Snap()), old(model.learned))
                      && OverlayAfter(old(parser.CheckPunct(e)), e.keycode, old(punct), old(punctKey), old(punctRep))
                      && ui.trace == old(ui.trace) + CommitEvents(old(ctx.GetPreedit()))
                                                   + PunctShown(old(parser.CheckPunct(e))))
    {
      if ctx.IsEmpty() {
        var triggered := HandlePunct(e, false);
        if triggered {
          return Return(true);
        }
        var handled := Judge(e);
        return Return(handled);
      }
      if e.mask & Keys.ReleaseMask != 0 {
        return Return(true);
      }
      if e.keycode in {Keys.Home, Keys.End, Keys.Escape, Keys.Left, Keys.Right, Keys.Tab} {
        Navigate(e.keycode);
        return Return(true);
      }
      if Keys.PagesUp(e.keycode) || Keys.PagesDown(e.keycode) {
        Page(e.keycode);
        return Return(true);
      }
      if Keys.IsDigit(e.keycode) {
        r := Digit(e.keycode);
        return;
      }
      if e.keycode == Keys.BackSpace {
        r := Backspace(e);
        return;
      }
      if e.keycode in {Keys.Space, Keys.Return} {
        Commit();
        return Return(true);
      }
      var triggered := HandlePunct(e, true);
      return Return(true);
    }

    /** The cursor keys of `__process`: Home, End and Escape jump, Left,
        Right and Tab step; the cursor is then normalised and the screen
        refreshed. */
    method Navigate(keycode: int)
      requires Valid() && keycode in {Keys.Home, Keys.End, Keys.Escape, Keys.Left, Keys.Right, Keys.Tab}
      modifies ctx`cursor, ui
      ensures Valid()
      ensures ctx.cursor == Normalize(ctx.keywords, schema.autoPrompt, MoveTarget(keycode, old(ctx.cursor)))
      ensures ui.trace == old(ui.trace) + ctx.View()
    {
      if keycode == Keys.Home {
        ctx.SetCursor(0);
      } else if keycode == Keys.End || keycode == Keys.Escape {
        ctx.SetCursor(-1);
      } else if keycode == Keys.Left {
        ctx.MoveCursor(-1);
      } else {
        ctx.MoveCursor(1);
      }
    }

    /** The paging keys of `__process`: the frontend pages only when there
        are candidates to page through. */
    method Page(keycode: int)
      requires Valid() && (Keys.PagesUp(keycode) || Keys.PagesDown(keycode))
      modifies ui
      ensures ui.trace == old(ui.trace) + Paged(keycode, ctx.GetCandidates())
    {
      var candidates := ctx.GetCandidates();
      if Keys.PagesUp(keycode) {
        if Truthy(candidates) {
          ui.PageUp();
        }
      } else if Truthy(candidates) {
        ui.PageDown();
      }
    }

    /** The digit keys of `__process`: with candidates shown, the digit's
        candidate on the current page is selected; a failed subscript
        propagates its exception. */
    method Digit(keycode: int) returns (r: Outcome<bool>)
      requires Valid() && Keys.IsDigit(keycode)
      modifies ctx, ui
      ensures Valid()
      ensures !old(Truthy(ctx.GetCandidates())) ==> r == Return(true) && unchanged(ctx) && ui.trace == old(ui.trace)
      ensures old(Truthy(ctx.GetCandidates())) ==>
                var pick := Pick(old(ctx.GetCandidates()), ui.candidateIndex(keycode - Keys.Digit1));
                && (pick.Raise? ==> r == Raise(pick.error) && unchanged(ctx) && ui.trace == old(ui.trace))
                && (pick.Return? ==>
                      && r == Return(true)
                      && ctx.Selected(old(ctx.Snap()), pick.value)
                      && ui.trace == old(ui.trace) + ctx.View())
    {
      r := Return(true);
      if Truthy(ctx.GetCandidates()) {
        var index := ui.candidateIndex(keycode - Keys.Digit1);
        var selected := ctx.Select(index);
        if selected.Raise? {
          r := Raise(selected.error);
        }
      }
    }

    /** The Backspace branch of `__process`. */
    method Backspace(e: KeyEvent) returns (r: Outcome<bool>)
      requires Valid()
      modifies ctx, ui
      ensures Valid()
      ensures BackspaceEdit(old(ctx.keywords)).None? ==>
                r == Return(e.coined) && unchanged(ctx) && ui.trace == old(ui.trace) + Judged(e)
      ensures BackspaceEdit(old(ctx.keywords)).Some? ==>
                && r == Return(true)
                && ctx.Updated(BackspaceEdit(old(ctx.keywords)).value, old(ctx.Snap()))
                && ui.trace == old(ui.trace) + ctx.View()
    {
      var edited := BackspaceEdit(ctx.keywords);
      if edited.None? {
        var handled := Judge(e);
        return Return(handled);
      }
      ctx.keywords := edited.value;
      ctx.UpdateKeywords();
      r := Return(true);
    }

    /** `__handle_punct`: a punctuation result (after committing the
        composition when asked to) opens the overlay or is committed. */
    method HandlePunct(e: KeyEvent, commit: bool) returns (triggered: bool)
      requires Valid()
      modifies Repr(), ui
      ensures Valid()
      ensures triggered == old(parser.CheckPunct(e)).Truthy()
      ensures !triggered ==> unchanged(this, ctx, parser, model) && ui.trace == old(ui.trace)
      ensures triggered ==> OverlayAfter(old(parser.CheckPunct(e)), e.keycode, old(punct), old(punctKey), old(punctRep))
      ensures triggered && !commit ==>
                unchanged(ctx, parser, model) && ui.trace == old(ui.trace) + PunctShown(old(parser.CheckPunct(e)))
      ensures triggered && commit ==>
                && Finalised(old(ctx.Snap()), old(model.learned))
                && ui.trace == old(ui.trace) + CommitEvents(old(ctx.GetPreedit())) + PunctShown(old(parser.CheckPunct(e)))
    {
      var p := parser.CheckPunct(e);
      if !p.Truthy() {
        return false;
      }
      if commit {
        Commit();
      }
      triggered := true;
      match p
      case Forms(forms) =>
        punct, punctKey, punctRep := forms, e.keycode, 0;
        ui.UpdatePreedit(forms[0], 0, |forms[0]|);
      case Text(s) =>
        ui.CommitString(s);
    }

    /** `__commit`: deliver the preedit, let the model learn it, then clear
        the context and the parser. */
    method Commit()
      requires Valid()
      modifies Repr(), ui
      ensures Valid() && unchanged(this)
      ensures Finalised(old(ctx.Snap()), old(model.learned)) && ctx.IsEmpty()
      ensures ui.trace == old(ui.trace) + CommitEvents(old(ctx.GetPreedit()))
    {
      ui.CommitString(ctx.GetPreedit());
      model.Learn(ctx);
      ctx.Clear();
      parser.Clear();
    }
  }
}
