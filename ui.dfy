/** The frontend boundary: what the core pushes to the host input-method
    framework, recorded as a trace of events, and the one question it asks
    of it (which candidate a page-relative digit denotes). */
module Ui {
  import opened Base

  /** What choosing a candidate means: the text it stands for and how many
      keyword segments it consumes. */
  datatype Choice = Choice(text: string, consumed: int)

  /** One candidate: `(raw_key, (display_text, consumed_length))`. */
  datatype Candidate = Candidate(key: string, choice: Choice)

  type CandidateList = seq<Candidate>

  /** One schema-menu entry: `(display_name, schema_key)`. */
  datatype SchemaEntry = SchemaEntry(display: string, key: string)

  /** One call from the core into the frontend. */
  datatype Event =
    | CommitString(text: string)
    | UpdatePreedit(text: string, start: int, end: int)
    | UpdateAux(text: string)
    | UpdateCandidates(candidates: Option<CandidateList>)
    | UpdateSchemaMenu(entries: seq<SchemaEntry>)    // update_candidates with the schema list
    | PageUp
    | PageDown

  /** Python truthiness of a candidate list: present and non-empty. */
  predicate Truthy(c: Option<CandidateList>)
  {
    c.Some? && c.value != []
  }

  /** The frontend as the core sees it. Every call is appended to `trace`;
      `candidateIndex` answers `get_candidate_index`. */
  class Frontend {
    var trace: seq<Event>
    const candidateIndex: nat -> nat

    constructor (candidateIndex: nat -> nat)
      ensures trace == [] && this.candidateIndex == candidateIndex
    {
      trace := [];
      this.candidateIndex := candidateIndex;
    }

    method CommitString(s: string)
      modifies this
      ensures trace == old(trace) + [Event.CommitString(s)]
    {
      trace := trace + [Event.CommitString(s)];
    }

    method UpdatePreedit(s: string, start: int, end: int)
      modifies this
      ensures trace == old(trace) + [Event.UpdatePreedit(s, start, end)]
    {
      trace := trace + [Event.UpdatePreedit(s, start, end)];
    }

    method UpdateAux(s: string)
      modifies this
      ensures trace == old(trace) + [Event.UpdateAux(s)]
    {
      trace := trace + [Event.UpdateAux(s)];
    }

    method UpdateCandidates(c: Option<CandidateList>)
      modifies this
      ensures trace == old(trace) + [Event.UpdateCandidates(c)]
    {
      trace := trace + [Event.UpdateCandidates(c)];
    }

    method UpdateSchemaMenu(entries: seq<SchemaEntry>)
      modifies this
      ensures trace == old(trace) + [Event.UpdateSchemaMenu(entries)]
    {
      trace := trace + [Event.UpdateSchemaMenu(entries)];
    }

    /** `page_up`; the core never uses its answer. */
    method PageUp()
      modifies this
      ensures trace == old(trace) + [Event.PageUp]
    {
      trace := trace + [Event.PageUp];
    }

    /** `page_down`; the core never uses its answer. */
    method PageDown()
      modifies this
      ensures trace == old(trace) + [Event.PageDown]
    {
      trace := trace + [Event.PageDown];
    }
  }

  /** The character offset where fragment `k` of the preedit starts. */
  function SpanStart(parts: seq<string>, k: nat): nat
    requires k <= |parts|
  {
    |Join(parts[..k])|
  }

  /** Every fragment sits in the joined string at the offset where its
      span starts. */
  lemma FragmentsInPlace(parts: seq<string>)
    ensures forall k :: 0 <= k < |parts| ==>
              SpanStart(parts, k) + |parts[k]| <= |Join(parts)|
              && Join(parts)[SpanStart(parts, k)..SpanStart(parts, k) + |parts[k]|] == parts[k]
  {
    forall k | 0 <= k < |parts|
      ensures SpanStart(parts, k) + |parts[k]| <= |Join(parts)|
      ensures Join(parts)[SpanStart(parts, k)..SpanStart(parts, k) + |parts[k]|] == parts[k]
    {
      JoinAround(parts, k);
    }
  }

  /** The highlighted span `[start, end)` of the fragment under the cursor,
      found by summing the lengths of the fragments before it. The span lies
      within the joined preedit and covers exactly that fragment. */
  method HighlightSpan(parts: seq<string>, cursor: nat) returns (start: nat, end: nat)
    requires cursor < |parts|
    ensures start == SpanStart(parts, cursor) && end == start + |parts[cursor]|
    ensures start <= end <= |Join(parts)|
    ensures Join(parts)[start..end] == parts[cursor]
  {
    start := 0;
    for i := 0 to cursor
      invariant start == |Join(parts[..i])|
    {
      assert parts[..i + 1][..i] == parts[..i];
      start := start + |parts[i]|;
    }
    end := start + |parts[cursor]|;
    JoinAround(parts, cursor);
  }
}
