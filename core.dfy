/** The composition core: schemas, the parser registry and the parser and
    model collaborators, and the composition buffer `Context`. */
module ZimeCore {
  import opened Base
  import opened Ui
  import Keys

  type KeyEvent = Keys.KeyEvent

  // ---------------------------------------------------------------------
  // Schema

  /** A schema: its name, its configuration values (read from the store
      once) and the two settings read when it is opened. */
  datatype Schema = Schema(name: string, config: map<string, string>,
                           parserName: Option<string>, autoPrompt: bool)
  {
    /** `get_config_value`: the stored value, or `None`. */
    function ConfigValue(key: string): (r: Option<string>)
      ensures r.Some? <==> key in config
      ensures r.Some? ==> r.value == config[key]
    {
      if key in config then Some(config[key]) else None
    }

    /** `get_config_char_sequence`: the stored value with its brackets
        removed when it has both; a missing value stays `None`. */
    function ConfigCharSequence(key: string): (r: Option<string>)
      ensures key !in config ==> r.None?
      ensures key in config && Bracketed(Some(config[key])) ==> r == Some(config[key][1..|config[key]| - 1])
      ensures key in config && !Bracketed(Some(config[key])) ==> r == Some(config[key])
    {
      StripBrackets(ConfigValue(key))
    }
  }

  /** Opening a schema reads the parser name and the auto-prompt flag from
      its configuration; auto-prompt is on only for the exact value `yes`. */
  function OpenSchema(name: string, config: map<string, string>): (s: Schema)
    ensures s.name == name && s.config == config
    ensures s.parserName.Some? <==> "Parser" in config
    ensures s.parserName.Some? ==> s.parserName.value == config["Parser"]
    ensures s.autoPrompt <==> "AutoPrompt" in config && config["AutoPrompt"] == "yes"
  {
    var cfg := Schema(name, config, None, false);
    Schema(name, config, cfg.ConfigValue("Parser"), cfg.ConfigValue("AutoPrompt") == Some("yes"))
  }

  /** A character-sequence value is stored as `[...]`: exactly one leading
      `[` and one trailing `]` are removed when both are present; any other
      value, `None` and the empty string included, is returned unchanged. */
  function StripBrackets(r: Option<string>): (s: Option<string>)
    ensures r.None? ==> s.None?
    ensures Bracketed(r) ==> s == Some(r.value[1..|r.value| - 1])
    ensures !Bracketed(r) ==> s == r
    ensures s.Some? ==> r.Some? && |s.value| <= |r.value|
  {
    if r.Some? && r.value != [] && r.value[0] == '[' && r.value[|r.value| - 1] == ']'
    then Some(r.value[1..|r.value| - 1])
    else r
  }

  /** A present value that starts with `[` and ends with `]`. */
  predicate Bracketed(r: Option<string>)
  {
    r.Some? && |r.value| >= 2 && r.value[0] == '[' && r.value[|r.value| - 1] == ']'
  }

  /** Storing a sequence in brackets and reading it back gives the sequence. */
  lemma BracketRoundTrip(chars: string)
    ensures StripBrackets(Some("[" + chars + "]")) == Some(chars)
  {
    var stored := "[" + chars + "]";
    assert stored[1..|stored| - 1] == chars;
  }

  // ---------------------------------------------------------------------
  // Parser

  /** What `check_punct` answers: not punctuation, one string to commit, or
      a list of alternative forms to cycle through. */
  datatype Punct = NoPunct | Text(text: string) | Forms(forms: seq<string>)
  {
    /** Python truthiness: `None`, `''` and `[]` are false. */
    predicate Truthy()
    {
      match this
      case NoPunct => false
      case Text(s) => s != ""
      case Forms(l) => l != []
    }
  }

  /** What a parser's `process` does with one event:
      - `Reject`: returns false, touching nothing;
      - `Accept`: returns true, touching nothing in the context;
      - `Edit`: replaces the keyword list by `closed + [open]` (the last
        segment is the open one), calls `update_keywords` and returns true;
      - `Defer`: returns whatever the engine's fallback returns. */
  datatype Step = Reject | Accept | Edit(closed: seq<string>, open: string) | Defer

  /** A step together with the parser's new internal buffer. */
  datatype Reaction = Reaction(step: Step, memory: seq<string>)

  /** A registered parser class: its tokenising behaviour, which this model
      does not see, given as the reaction to an event for the context and
      the parser's buffer, and its punctuation answer for an event and the
      buffer. */
  datatype ParserClass = ParserClass(react: (KeyEvent, Snapshot, seq<string>) -> Reaction,
                                     punctuation: (KeyEvent, seq<string>) -> Punct)

  /** A parser instance bound to a schema, with its internal buffer. */
  class Parser {
    const cls: ParserClass
    const schema: Schema
    var memory: seq<string>

    constructor (cls: ParserClass, schema: Schema)
      ensures this.cls == cls && this.schema == schema && memory == []
    {
      this.cls := cls;
      this.schema := schema;
      memory := [];
    }

    /** `process`, as far as the engine can observe it. */
    method Process(e: KeyEvent, ctx: Snapshot) returns (step: Step)
      modifies this
      ensures step == cls.react(e, ctx, old(memory)).step
      ensures memory == cls.react(e, ctx, old(memory)).memory
    {
      var r := cls.react(e, ctx, memory);
      step, memory := r.step, r.memory;
    }

    /** `check_punct`. */
    function CheckPunct(e: KeyEvent): Punct
      reads this
    {
      cls.punctuation(e, memory)
    }

    /** `clear`: forget everything buffered for the current composition. */
    method Clear()
      modifies this
      ensures memory == []
    {
      memory := [];
    }
  }

  /** The name-to-class parser registry. */
  class ParserRegistry {
    var parsers: map<string, ParserClass>

    constructor ()
      ensures parsers == map[]
    {
      parsers := map[];
    }

    /** `register`: the name now denotes the class; other names are untouched. */
    method Register(name: string, cls: ParserClass)
      modifies this
      ensures name in parsers && parsers[name] == cls
      ensures forall n :: n != name ==> (n in parsers <==> n in old(parsers))
      ensures forall n :: n != name && n in parsers ==> parsers[n] == old(parsers)[n]
    {
      parsers := parsers[name := cls];
    }

    /** `get_parser_class`: a missing name (or no name at all) raises KeyError. */
    function GetParserClass(name: Option<string>): (r: Outcome<ParserClass>)
      reads this
      ensures r.Return? <==> name.Some? && name.value in parsers
      ensures r.Return? ==> r.value == parsers[name.value]
      ensures r.Raise? ==> r.error == KeyError
    {
      if name.Some? && name.value in parsers then Return(parsers[name.value]) else Raise(KeyError)
    }

    /** `create`: a fresh parser of the class the schema names. */
    method Create(schema: Schema) returns (r: Outcome<Parser>)
      ensures r.Raise? <==> GetParserClass(schema.parserName).Raise?
      ensures r.Raise? ==> r.error == KeyError
      ensures r.Return? ==> fresh(r.value) && r.value.memory == [] && r.value.schema == schema
                            && r.value.cls == parsers[schema.parserName.value]
    {
      var c := GetParserClass(schema.parserName);
      if c.Raise? {
        r := Raise(c.error);
      } else {
        var p := new Parser(c.value, schema);
        r := Return(p);
      }
    }
  }

  // ---------------------------------------------------------------------
  // Model

  /** What a collaborator sees of a context: all of its state. */
  datatype Snapshot = Snapshot(schema: string, keywords: seq<string>, cursor: int,
                               preedit: seq<string>, candidates: seq<Option<CandidateList>>,
                               selection: seq<Choice>, aux: string)

  /** What the model writes back into a context: the segmentation (which
      `select` may replace), the preedit fragments, the candidate lists, the
      selection history and the aux override. */
  datatype Conversion = Conversion(keywords: seq<string>, preedit: seq<string>,
                                   candidates: seq<Option<CandidateList>>,
                                   selection: seq<Choice>, aux: string)
  {
    /** A conversion of snapshot `s` leaves a usable buffer: at least one
        segment, one preedit fragment per segment, and the cursor of `s`,
        when it was on a segment, still on one. */
    predicate Fits(s: Snapshot)
    {
      |keywords| >= 1 && |preedit| == |keywords| && (0 <= s.cursor < |s.keywords| ==> s.cursor < |keywords|)
    }
  }

  /** The candidate model, which this model does not see: `update` and
      `select` as functions from what the context holds to what they write. */
  datatype ModelLogic = ModelLogic(update: Snapshot -> Conversion,
                                   select: (Snapshot, Choice) -> Conversion)
  {
    /** The assumption the composition core relies on: whatever the model
        writes fits the snapshot it was given. */
    ghost predicate Sound()
    {
      && (forall s: Snapshot :: update(s).Fits(s))
      && (forall s: Snapshot, c: Choice :: select(s, c).Fits(s))
    }
  }

  /** The model object, with the record of every composition it learned. */
  class Model {
    const logic: ModelLogic
    var learned: seq<Snapshot>

    constructor (logic: ModelLogic)
      ensures this.logic == logic && learned == []
    {
      this.logic := logic;
      learned := [];
    }

    /** `update`: recompute preedit and candidates for the context. */
    method Update(ctx: Context)
      modifies ctx
      ensures ctx.cursor == old(ctx.cursor)
      ensures ctx.Shows(logic.update(old(ctx.Snap())))
    {
      ctx.Write(logic.update(ctx.Snap()));
    }

    /** `select`: apply a chosen candidate to the context. */
    method Select(ctx: Context, s: Choice)
      modifies ctx
      ensures ctx.cursor == old(ctx.cursor)
      ensures ctx.Shows(logic.select(old(ctx.Snap()), s))
    {
      ctx.Write(logic.select(ctx.Snap(), s));
    }

    /** `learn`: record the finished composition. */
    method Learn(ctx: Context)
      modifies this
      ensures learned == old(learned) + [ctx.Snap()]
    {
      learned := learned + [ctx.Snap()];
    }
  }

  // ---------------------------------------------------------------------
  // Context

  /** Where a requested cursor position lands. The position is reduced
      modulo the number of segments (Python's `%` and Dafny's agree for a
      positive divisor), and when auto-prompt is on the cursor is pulled
      back off a trailing empty segment, unless that is the only one. */
  function Normalize(keywords: seq<string>, autoPrompt: bool, pos: int): (c: nat)
    requires |keywords| >= 1
    ensures c < |keywords|
    ensures autoPrompt && |keywords| > 1 && keywords[|keywords| - 1] == "" ==> c != |keywords| - 1
    ensures !(autoPrompt && keywords[|keywords| - 1] == "") ==> c == pos % |keywords|
    ensures c == pos % |keywords| || c == pos % |keywords| - 1 == |keywords| - 2
  {
    var n := |keywords|;
    var p := pos % n;
    if p > 0 && p == n - 1 && keywords[p] == "" && autoPrompt then p - 1 else p
  }

  /** Normalising an already normalised position changes nothing. */
  lemma NormalizeIdempotent(keywords: seq<string>, autoPrompt: bool, pos: int)
    requires |keywords| >= 1
    ensures Normalize(keywords, autoPrompt, Normalize(keywords, autoPrompt, pos))
            == Normalize(keywords, autoPrompt, pos)
  {
  }

  /** `set_cursor(-1)` on three segments: the last one, unless auto-prompt
      pulls the cursor off an empty last segment. */
  lemma EndOfThreeSegments(a: string, b: string, c: string, autoPrompt: bool)
    ensures Normalize([a, b, c], autoPrompt, -1) == if autoPrompt && c == "" then 1 else 2
  {
  }

  /** With `["ni", "hao", ""]` and auto-prompt on, moving right from either
      reachable position stays within positions 0 and 1. */
  lemma RightStaysOnTypedSegments(cursor: nat)
    requires cursor <= 1
    ensures Normalize(["ni", "hao", ""], true, cursor + 1) <= 1
  {
  }

  /** The subscript `candidates[cursor][index][1]`: subscripting `None`
      raises TypeError, a subscript outside the list raises IndexError, and
      negative subscripts count from the end. */
  function Pick(cands: Option<CandidateList>, index: int): (r: Outcome<Choice>)
    ensures r.Return? <==> cands.Some? && InBounds(|cands.value|, index)
    ensures cands.None? ==> r == Raise(TypeError)
    ensures cands.Some? && !InBounds(|cands.value|, index) ==> r == Raise(IndexError)
    ensures r.Return? ==> r.value in set c | c in cands.value :: c.choice
    ensures r.Return? && 0 <= index ==> r.value == cands.value[index].choice
    ensures r.Return? && index < 0 ==> r.value == cands.value[|cands.value| + index].choice
  {
    match cands
    case None => Raise(TypeError)
    case Some(l) =>
      if InBounds(|l|, index) then Return(l[Wrap(|l|, index)].choice) else Raise(IndexError)
  }

  /** The frontend calls that show an empty composition. */
  const EmptyScreen: seq<Event> :=
    [Event.UpdatePreedit("", 0, 0), Event.UpdateAux(""), Event.UpdateCandidates(None)]

  /** A canonical context shows nothing. */
  lemma CanonicalView(ctx: Context)
    requires ctx.Valid() && ctx.Canonical()
    ensures ctx.GetPreedit() == "" && ctx.View() == EmptyScreen
  {
    assert ctx.preedit[..0] == [];
    assert Join(ctx.preedit) == Join(ctx.preedit[..0]) + "";
  }

  /** The composition buffer. */
  class Context {
    const schema: Schema
    const model: Model
    const ui: Frontend
    var keywords: seq<string>
    var cursor: int
    var preedit: seq<string>
    var candidates: seq<Option<CandidateList>>
    var selection: seq<Choice>
    var auxString: string

    /** The buffer invariant: at least one segment, the cursor on one of
        them, one preedit fragment per segment (given a sound model). */
    ghost predicate Valid()
      reads this
    {
      |keywords| >= 1 && 0 <= cursor < |keywords| && |preedit| == |keywords| && model.logic.Sound()
    }

    /** The state `__reset` leaves behind. */
    predicate Canonical()
      reads this
    {
      keywords == [""] && cursor == 0 && preedit == [""] && candidates == [None]
      && selection == [] && auxString == ""
    }

    /** The buffer holds what a model conversion wrote. */
    ghost predicate Shows(c: Conversion)
      reads this
    {
      keywords == c.keywords && preedit == c.preedit && candidates == c.candidates
      && selection == c.selection && auxString == c.aux
    }

    /** The state `update_keywords` leaves when the keywords became `k` in
        the state `before`: the cursor on the normalised last segment, and
        the model's update of that state. */
    ghost predicate Updated(k: seq<string>, before: Snapshot)
      reads this
    {
      && |k| >= 1
      && cursor == Normalize(k, schema.autoPrompt, |k| - 1)
      && Shows(model.logic.update(before.(keywords := k, cursor := cursor)))
    }

    /** The state `select` leaves after choosing `s` in the state `before`:
        the cursor advanced by the segments `s` consumes and normalised, and
        the model's select of `s` in that state. */
    ghost predicate Selected(before: Snapshot, s: Choice)
      reads this
    {
      && |before.keywords| >= 1
      && cursor == Normalize(before.keywords, schema.autoPrompt, before.cursor + s.consumed)
      && Shows(model.logic.select(before.(cursor := cursor), s))
    }

    function Snap(): Snapshot
      reads this
    {
      Snapshot(schema.name, keywords, cursor, preedit, candidates, selection, auxString)
    }

    constructor (schema: Schema, model: Model, ui: Frontend)
      requires model.logic.Sound()
      ensures Valid() && Canonical()
      ensures this.schema == schema && this.model == model && this.ui == ui
    {
      this.schema, this.model, this.ui := schema, model, ui;
      keywords, cursor, preedit, candidates, selection, auxString := [""], 0, [""], [None], [], "";
    }

    /** The model writes a conversion into the buffer. */
    method Write(c: Conversion)
      modifies this
      ensures cursor == old(cursor) && Shows(c)
    {
      keywords, preedit, candidates, selection, auxString := c.keywords, c.preedit, c.candidates, c.selection, c.aux;
    }

    /** `clear`: back to the canonical empty state, then refresh the screen,
        which then shows nothing. */
    method Clear()
      requires model.logic.Sound()
      modifies this, ui
      ensures Valid() && Canonical() && IsEmpty() && GetPreedit() == ""
      ensures ui.trace == old(ui.trace) + EmptyScreen
    {
      keywords, cursor, preedit, candidates, selection, auxString := [""], 0, [""], [None], [], "";
      Refresh();
      CanonicalView(this);
    }

    /** `is_empty`: nothing has been typed. */
    function IsEmpty(): (b: bool)
      reads this
      ensures b <==> keywords == [] || keywords == [""]
      ensures b ==> Join(keywords) == ""
      ensures Canonical() ==> b
    {
      keywords == [] || keywords == [""]
    }

    /** `update_keywords`: after the keyword list changed, put the cursor on
        the last segment it may rest on, let the model recompute, refresh. */
    method UpdateKeywords()
      requires |keywords| >= 1 && model.logic.Sound()
      modifies this, ui
      ensures Valid() && Updated(old(keywords), old(Snap()))
      ensures ui.trace == old(ui.trace) + View()
    {
      SetCursorAt(|keywords| - 1);
      model.Update(this);
      Refresh();
    }

    /** `select`: take candidate `index` at the cursor, advance the cursor by
        the segments it consumes, let the model apply it, refresh. A missing
        list or a bad subscript raises before anything changes. */
    method Select(index: int) returns (r: Outcome<()>)
      requires Valid()
      modifies this, ui
      ensures Valid()
      ensures r.Raise? <==> Pick(old(GetCandidates()), index).Raise?
      ensures r.Raise? ==> r.error == Pick(old(GetCandidates()), index).error
      ensures r.Raise? ==> unchanged(this) && ui.trace == old(ui.trace)
      ensures r.Return? ==>
                && Selected(old(Snap()), Pick(old(GetCandidates()), index).value)
                && ui.trace == old(ui.trace) + View()
    {
      var c := Pick(GetCandidates(), index);
      if c.Raise? {
        return Raise(c.error);
      }
      SetCursorAt(cursor + c.value.consumed);
      model.Select(this, c.value);
      Refresh();
      r := Return(());
    }

    /** `__set_cursor`. */
    method SetCursorAt(pos: int)
      requires |keywords| >= 1
      modifies this`cursor
      ensures cursor == Normalize(keywords, schema.autoPrompt, pos)
    {
      var n := |keywords|;
      var p := pos % n;
      if p > 0 && p == n - 1 && keywords[p] == "" && schema.autoPrompt {
        p := p - 1;
      }
      cursor := p;
    }

    /** `set_cursor`. */
    method SetCursor(pos: int)
      requires Valid()
      modifies this`cursor, ui
      ensures Valid()
      ensures cursor == Normalize(keywords, schema.autoPrompt, pos)
      ensures ui.trace == old(ui.trace) + View()
    {
      SetCursorAt(pos);
      Refresh();
    }

    /** `move_cursor`. */
    method MoveCursor(offset: int)
      requires Valid()
      modifies this`cursor, ui
      ensures Valid()
      ensures cursor == Normalize(keywords, schema.autoPrompt, old(cursor) + offset)
      ensures ui.trace == old(ui.trace) + View()
    {
      SetCursorAt(cursor + offset);
      Refresh();
    }

    /** `get_preedit`: the whole visible composition, which holds every
        fragment at the offset where its span starts. */
    function GetPreedit(): (s: string)
      reads this
      ensures forall k {:trigger SpanStart(preedit, k)} :: 0 <= k < |preedit| ==>
                SpanStart(preedit, k) + |preedit[k]| <= |s|
                && s[SpanStart(preedit, k)..SpanStart(preedit, k) + |preedit[k]|] == preedit[k]
      ensures |s| == SpanStart(preedit, |preedit|)
    {
      assert preedit[..|preedit|] == preedit;
      FragmentsInPlace(preedit);
      Join(preedit)
    }

    /** `get_aux_string`: an explicit override wins; otherwise the segment
        under the cursor is shown, except the open last segment when
        auto-prompt is off, for which nothing is shown. */
    function GetAuxString(): (s: string)
      reads this
      requires Valid()
      ensures auxString != "" ==> s == auxString
      ensures auxString == "" && (cursor < |keywords| - 1 || schema.autoPrompt) ==> s == keywords[cursor]
      ensures auxString == "" && cursor == |keywords| - 1 && !schema.autoPrompt ==> s == ""
    {
      if auxString != "" then auxString
      else if cursor < |keywords| - 1 || schema.autoPrompt then keywords[cursor]
      else ""
    }

    /** `get_candidates`: the list computed for the cursor position, or
        `None` when nothing was computed that far. */
    function GetCandidates(): (c: Option<CandidateList>)
      reads this
      requires Valid()
      ensures cursor >= |candidates| ==> c == None
      ensures cursor < |candidates| ==> c == candidates[cursor]
    {
      if cursor >= |candidates| then None else candidates[cursor]
    }

    /** What one refresh pushes to the frontend: the preedit with the span of
        the fragment under the cursor, the aux string, the candidates. */
    function View(): seq<Event>
      reads this
      requires Valid()
    {
      var start := SpanStart(preedit, cursor);
      [Event.UpdatePreedit(GetPreedit(), start, start + |preedit[cursor]|),
       Event.UpdateAux(GetAuxString()),
       Event.UpdateCandidates(GetCandidates())]
    }

    /** The engine's `update_ui`, which the context calls back after every
        change: it computes the highlighted span and pushes the view. */
    method Refresh()
      requires Valid()
      modifies ui
      ensures ui.trace == old(ui.trace) + View()
    {
      var start, end := HighlightSpan(preedit, cursor);
      ui.UpdatePreedit(GetPreedit(), start, end);
      ui.UpdateAux(GetAuxString());
      ui.UpdateCandidates(GetCandidates());
    }
  }
}
