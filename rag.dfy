/**
 * The retrieval index of services/rag.py (class `SocioRAG`): the
 * heading-delimited chunker, one embedding per chunk stored in a flat index
 * in chunk order, and the search that maps the positions the index returns
 * back to chunk text.
 *
 * The embedding service is the parameter `embed` (`None` when the call
 * raises) and the nearest-neighbour selection of the flat index is the
 * parameter `nearest`; neither is computed here.
 */
module Rag {
  import opened Outcomes
  import opened PyText

  /** An embedding vector. Its entries are never computed with. */
  type Vector = seq<real>

  /** The number of results `search` returns when the caller names none. */
  const DefaultK := 3

  // ---------------------------------------------------------------------
  // The chunker
  // ---------------------------------------------------------------------

  /** A line opens a new chunk when it is not blank (`line.strip()` is not
   *  empty, see HeadingIff) and does not start with a space. */
  predicate IsHeading(line: string) {
    !Blank(line) && !StartsWith(line, " ")
  }

  /** The heading rule is the test of the chunking loop, `line.strip() and
   *  not line.startswith(' ')`; in plain terms some character is not
   *  whitespace and the first is not a space (a tab does not disqualify). */
  lemma HeadingIff(line: string)
    ensures IsHeading(line) <==> Strip(line) != "" && !StartsWith(line, " ")
    ensures IsHeading(line) <==> !Blank(line) && line[0] != ' '
  {
    StripEmptyIffBlank(line);
    if line != [] {
      assert StartsWith(line, " ") <==> line[0] == ' ';
    }
  }

  /** One pass of the chunking loop's body over the groups built so far:
   *  the first line and every heading open a new group, any other line joins
   *  the last group. */
  function Step(gs: seq<seq<string>>, line: string): (gs': seq<seq<string>>)
    ensures gs' != []
  {
    if gs == [] || IsHeading(line) then gs + [[line]]
    else gs[..|gs| - 1] + [gs[|gs| - 1] + [line]]
  }

  /** The groups of lines the chunking loop builds, one line at a time. */
  function Groups(lines: seq<string>): (gs: seq<seq<string>>)
    ensures (gs == []) == (lines == [])
    decreases |lines|
  {
    if lines == [] then [] else Step(Groups(lines[..|lines| - 1]), lines[|lines| - 1])
  }

  /** Each group joined with line feeds, as `'\n'.join(current_chunk)` does. */
  function JoinEach(gs: seq<seq<string>>): (cs: seq<string>)
    ensures |cs| == |gs|
  {
    seq(|gs|, k requires 0 <= k < |gs| => Join(gs[k]))
  }

  /** The lines of `text.split('\n')` gathered into groups. */
  function ChunkGroups(text: string): seq<seq<string>> {
    Groups(Split(text))
  }

  /** The chunks `build_index` stores for `text`. */
  function Chunks(text: string): seq<string> {
    JoinEach(ChunkGroups(text))
  }

  /** The groups laid end to end. */
  function Flatten(gs: seq<seq<string>>): seq<string> {
    if gs == [] then [] else Flatten(gs[..|gs| - 1]) + gs[|gs| - 1]
  }

  /** How many lines are headings. */
  function HeadingCount(lines: seq<string>): nat {
    if lines == [] then 0
    else HeadingCount(lines[..|lines| - 1]) + (if IsHeading(lines[|lines| - 1]) then 1 else 0)
  }

  /** The groups after one more line are one more step. */
  lemma GroupsSnoc(prefix: seq<string>, line: string)
    ensures Groups(prefix + [line]) == Step(Groups(prefix), line)
  {
    assert (prefix + [line])[..|prefix|] == prefix;
  }

  /** No group is empty. */
  ghost predicate NonEmptyGroups(gs: seq<seq<string>>) {
    forall k :: 0 <= k < |gs| ==> gs[k] != []
  }

  /** Every group but the first begins with a heading. */
  ghost predicate HeadedGroups(gs: seq<seq<string>>)
    requires NonEmptyGroups(gs)
  {
    forall k :: 0 < k < |gs| ==> IsHeading(gs[k][0])
  }

  /** Only the first line of a group can be a heading. */
  ghost predicate HeadingsLead(gs: seq<seq<string>>) {
    forall k, j :: 0 <= k < |gs| && 0 < j < |gs[k]| ==> !IsHeading(gs[k][j])
  }

  /** All three at once. */
  ghost predicate Shaped(gs: seq<seq<string>>) {
    NonEmptyGroups(gs) && HeadedGroups(gs) && HeadingsLead(gs)
  }

  /** A step keeps the shape and the first line of the first group. */
  lemma StepShaped(gs: seq<seq<string>>, line: string)
    requires Shaped(gs)
    ensures Shaped(Step(gs, line))
    ensures gs == [] ==> Step(gs, line) == [[line]]
    ensures gs != [] ==> Step(gs, line)[0][0] == gs[0][0]
  {
    var gs' := Step(gs, line);
    if gs == [] || IsHeading(line) {
      assert forall k :: 0 <= k < |gs| ==> gs'[k] == gs[k];
    } else {
      var m := |gs| - 1;
      assert forall k :: 0 <= k < m ==> gs'[k] == gs[k];
      assert forall j :: 0 <= j < |gs[m]| ==> gs'[m][j] == gs[m][j];
    }
  }

  /** A step puts the line at the end of the flattened groups. */
  lemma StepFlatten(gs: seq<seq<string>>, line: string)
    ensures Flatten(Step(gs, line)) == Flatten(gs) + [line]
  {
    var gs' := Step(gs, line);
    if gs == [] || IsHeading(line) {
      assert gs'[..|gs|] == gs;
    } else {
      var m := |gs| - 1;
      assert gs'[..m] == gs[..m];
      assert Flatten(gs) == Flatten(gs[..m]) + gs[m];
      assert Flatten(gs') == Flatten(gs[..m]) + (gs[m] + [line]);
    }
  }

  /** A step adds only the new line to the lines held by the groups. */
  lemma StepDrawnFrom(gs: seq<seq<string>>, line: string, lines: seq<string>)
    requires forall k, j :: 0 <= k < |gs| && 0 <= j < |gs[k]| ==> gs[k][j] in lines
    requires line in lines
    ensures forall k, j :: 0 <= k < |Step(gs, line)| && 0 <= j < |Step(gs, line)[k]| ==> Step(gs, line)[k][j] in lines
  {
    var gs' := Step(gs, line);
    if gs == [] || IsHeading(line) {
      assert forall k :: 0 <= k < |gs| ==> gs'[k] == gs[k];
    } else {
      var m := |gs| - 1;
      assert forall k :: 0 <= k < m ==> gs'[k] == gs[k];
      assert forall j :: 0 <= j < |gs[m]| ==> gs'[m][j] == gs[m][j];
    }
  }

  /** The shape of the groups: none is empty, only its first line can be a
   *  heading, and every group but the first begins with a heading. */
  lemma {:induction false} GroupsShaped(lines: seq<string>)
    ensures Shaped(Groups(lines))
    ensures lines != [] ==> Groups(lines)[0][0] == lines[0]
    decreases |lines|
  {
    if lines != [] {
      var init := lines[..|lines| - 1];
      GroupsShaped(init);
      StepShaped(Groups(init), lines[|lines| - 1]);
      if init != [] {
        assert init[0] == lines[0];
      }
    }
  }

  /** Every line lands in exactly one group, in order. */
  lemma {:induction false} GroupsPartition(lines: seq<string>)
    ensures Flatten(Groups(lines)) == lines
    decreases |lines|
  {
    if lines != [] {
      var init := lines[..|lines| - 1];
      GroupsPartition(init);
      StepFlatten(Groups(init), lines[|lines| - 1]);
      assert lines == init + [lines[|lines| - 1]];
    }
  }

  /** Every line of every group is one of the input lines. */
  lemma {:induction false} GroupsDrawnFrom(lines: seq<string>)
    ensures forall k, j :: 0 <= k < |Groups(lines)| && 0 <= j < |Groups(lines)[k]| ==> Groups(lines)[k][j] in lines
    decreases |lines|
  {
    if lines != [] {
      var init := lines[..|lines| - 1];
      GroupsDrawnFrom(init);
      assert forall x :: x in init ==> x in lines;
      StepDrawnFrom(Groups(init), lines[|lines| - 1], lines);
    }
  }

  /** The number of groups is the number of headings, plus one when the
   *  first line is not a heading. */
  lemma {:induction false} GroupsCount(lines: seq<string>)
    ensures |Groups(lines)| == HeadingCount(lines) + (if lines != [] && !IsHeading(lines[0]) then 1 else 0)
    decreases |lines|
  {
    if lines != [] {
      var init := lines[..|lines| - 1];
      GroupsCount(init);
      if init != [] {
        assert init[0] == lines[0];
      }
    }
  }

  /** Joining the joined groups is joining their lines. */
  lemma {:induction false} JoinFlatten(gs: seq<seq<string>>)
    requires gs != []
    requires NonEmptyGroups(gs)
    ensures Join(JoinEach(gs)) == Join(Flatten(gs))
    decreases |gs|
  {
    var init := gs[..|gs| - 1];
    var g := gs[|gs| - 1];
    assert JoinEach(gs) == JoinEach(init) + [Join(g)];
    assert Flatten(gs) == Flatten(init) + g;
    if init == [] {
      assert JoinEach(gs) == [Join(g)];
      assert Flatten(gs) == g;
    } else {
      JoinFlatten(init);
      JoinAppend(JoinEach(init), [Join(g)]);
      var mid := init[|init| - 1];
      assert Flatten(init) == Flatten(init[..|init| - 1]) + mid;
      JoinAppend(Flatten(init), g);
    }
  }

  /** Round trip: `'\n'.join(chunks) == text`. */
  lemma ChunksRoundTrip(text: string)
    ensures Join(Chunks(text)) == text
  {
    var lines := Split(text);
    GroupsShaped(lines);
    JoinFlatten(Groups(lines));
    GroupsPartition(lines);
    JoinSplit(text);
  }

  /** The chunk list is never empty; the empty text gives the one chunk `""`. */
  lemma ChunksNonEmpty(text: string)
    ensures Chunks(text) != []
    ensures text == "" ==> Chunks(text) == [""]
  {
    if text == "" {
      assert Split(text) == [""];
      assert Split(text)[..0] == [];
      assert Groups(Split(text)) == [[""]];
    }
  }

  /** How many chunks there are: one per heading line, plus one when the
   *  text does not start with a heading. */
  lemma ChunksCount(text: string)
    ensures |Chunks(text)| == HeadingCount(Split(text)) + (if IsHeading(Split(text)[0]) then 0 else 1)
  {
    GroupsCount(Split(text));
  }

  /** Lines none of which is a heading count zero headings. */
  lemma {:induction false} NoHeadingsCountZero(lines: seq<string>)
    requires forall i :: 0 <= i < |lines| ==> !IsHeading(lines[i])
    ensures HeadingCount(lines) == 0
    decreases |lines|
  {
    if lines != [] {
      NoHeadingsCountZero(lines[..|lines| - 1]);
    }
  }

  /** A text with no heading line is a single chunk, the whole text. */
  lemma NoHeadingsSingleChunk(text: string)
    requires forall i :: 0 <= i < |Split(text)| ==> !IsHeading(Split(text)[i])
    ensures Chunks(text) == [text]
  {
    NoHeadingsCountZero(Split(text));
    ChunksCount(text);
    ChunksRoundTrip(text);
  }

  /** The lines of chunk `k` are its group: only the first can be a heading,
   *  and it is one unless `k` is the first chunk. */
  lemma ChunkLines(text: string, k: nat)
    requires k < |Chunks(text)|
    ensures Split(Chunks(text)[k]) == ChunkGroups(text)[k]
    ensures k > 0 ==> IsHeading(Split(Chunks(text)[k])[0])
    ensures forall j :: 0 < j < |Split(Chunks(text)[k])| ==> !IsHeading(Split(Chunks(text)[k])[j])
  {
    var lines := Split(text);
    var g := Groups(lines)[k];
    GroupsShaped(lines);
    GroupsDrawnFrom(lines);
    assert forall j :: 0 <= j < |g| ==> g[j] in lines;
    forall j | 0 <= j < |g| ensures NoNewline(g[j]) {
      var i :| 0 <= i < |lines| && lines[i] == g[j];
    }
    SplitJoin(g);
  }

  /** Only the first chunk can be the empty string. */
  lemma LaterChunksNonEmpty(text: string, k: nat)
    requires 0 < k < |Chunks(text)|
    ensures Chunks(text)[k] != ""
  {
    var g := ChunkGroups(text)[k];
    GroupsShaped(Split(text));
    JoinStartsWithFirst(g);
    assert !Blank(g[0]);
  }

  /** The heading rule admits a tab-indented line. */
  lemma TabIndentedIsHeading(line: string)
    requires line != [] && line[0] == '\t' && !Blank(line)
    ensures IsHeading(line)
  {
    HeadingIff(line);
  }

  // ---------------------------------------------------------------------
  // The index
  // ---------------------------------------------------------------------

  /** A flat L2 index: its dimension and its vectors, by position. */
  datatype FlatIndex = FlatIndex(dim: nat, vectors: seq<Vector>)

  /** How `build_index` ends. */
  datatype BuildOutcome =
    | Built
    | EmbeddingFailed   // an embedding call raised
    | RaggedEmbeddings  // the vectors differ in length, so no 2-d array forms

  /** How `search` fails. */
  datatype SearchError =
    | QueryEmbeddingFailed  // the embedding call for the query raised
    | NotBuilt              // `self.index` is still `None`
    | QueryRejected         // FAISS refuses a query of another dimension, or `k < 1`
    | PositionOutOfRange    // `self.chunks[i]` raised `IndexError`

  /** Every chunk's embedding call returns a vector. */
  predicate AllEmbedded(cs: seq<string>, embed: string -> Option<Vector>) {
    forall i :: 0 <= i < |cs| ==> embed(cs[i]).Some?
  }

  /** The embeddings of the chunks, in chunk order. */
  function Embedded(cs: seq<string>, embed: string -> Option<Vector>): (vs: seq<Vector>)
    requires AllEmbedded(cs, embed)
    ensures |vs| == |cs|
  {
    seq(|cs|, i requires 0 <= i < |cs| => embed(cs[i]).value)
  }

  /** All vectors have the length of the first one. */
  predicate Uniform(vs: seq<Vector>) {
    forall i :: 0 <= i < |vs| ==> |vs[i]| == |vs[0]|
  }

  /** Python's `s[i]` accepts `-|s| <= i < |s|`. */
  predicate InPyRange(i: int, n: nat) {
    -(n as int) <= i < n
  }

  /** The position Python's `s[i]` reads. */
  function PyPos(i: int, n: nat): (p: nat)
    requires InPyRange(i, n)
    ensures p < n
  {
    if i >= 0 then i else n + i
  }

  /** `[chunks[i] for i in ids]`: the chunk at each returned position, in
   *  order, or `IndexError` when a position is out of range. */
  function ChunksAt(chunks: seq<string>, ids: seq<int>): (r: Result<seq<string>, SearchError>)
    ensures r.Ok? <==> forall j :: 0 <= j < |ids| ==> InPyRange(ids[j], |chunks|)
    ensures r.Ok? ==> |r.value| == |ids|
    ensures r.Ok? ==> forall j :: 0 <= j < |ids| ==> r.value[j] == chunks[PyPos(ids[j], |chunks|)]
    ensures r.Err? ==> r.error == PositionOutOfRange
  {
    if ids == [] then Ok([])
    else if !InPyRange(ids[0], |chunks|) then Err(PositionOutOfRange)
    else
      match ChunksAt(chunks, ids[1..])
      case Ok(rest) => Ok([chunks[PyPos(ids[0], |chunks|)]] + rest)
      case Err(e) => Err(e)
  }

  /** The positions a flat index reports lie in `-1 .. n-1` (it pads with
   *  -1 when asked for more than it holds). Over a non-empty chunk list they
   *  always resolve, every result is a stored chunk, and a -1 pad reads the
   *  last chunk. */
  lemma IndexPositionsResolve(chunks: seq<string>, ids: seq<int>)
    requires chunks != []
    requires forall j :: 0 <= j < |ids| ==> -1 <= ids[j] < |chunks|
    ensures ChunksAt(chunks, ids).Ok?
    ensures forall j :: 0 <= j < |ids| ==> ChunksAt(chunks, ids).value[j] in chunks
    ensures forall j :: 0 <= j < |ids| && ids[j] == -1 ==> ChunksAt(chunks, ids).value[j] == chunks[|chunks| - 1]
  {
  }

  /** The embedding loop of `build_index`: one embedding call per chunk, in
   *  chunk order, stopping at the first call that raises. */
  method EmbedChunks(cs: seq<string>, embed: string -> Option<Vector>) returns (vs: Option<seq<Vector>>)
    ensures vs.Some? <==> AllEmbedded(cs, embed)
    ensures vs.Some? ==> vs.value == Embedded(cs, embed)
  {
    var embeddings: seq<Vector> := [];
    var j := 0;
    while j < |cs|
      invariant 0 <= j <= |cs|
      invariant |embeddings| == j
      invariant forall t :: 0 <= t < j ==> embed(cs[t]).Some? && embeddings[t] == embed(cs[t]).value
    {
      var response := embed(cs[j]);
      if response.None? {
        return None;
      }
      embeddings := embeddings + [response.value];
      j := j + 1;
    }
    assert embeddings == Embedded(cs, embed);
    vs := Some(embeddings);
  }

  /** The chunker's test for a line that opens a new chunk: its `strip()` is
   *  non-empty and it does not start with a space. */
  method OpensChunk(line: string) returns (b: bool)
    ensures b == IsHeading(line)
  {
    HeadingIff(line);
    b := Strip(line) != "" && !StartsWith(line, " ");
  }

  /** The engine: the chunk list and the index built over it. */
  class SocioRag {
    var index: Option<FlatIndex>
    var chunks: seq<string>

    /** Searchable: one vector of the index's dimension per chunk, in order. */
    ghost predicate Ready()
      reads this
    {
      && index.Some?
      && chunks != []
      && |index.value.vectors| == |chunks|
      && forall i :: 0 <= i < |chunks| ==> |index.value.vectors[i]| == index.value.dim
    }

    /** `SocioRAG()`: no index and no chunks. */
    constructor ()
      ensures index == None && chunks == []
    {
      index := None;
      chunks := [];
    }

    /** `build_index` over the text read from the knowledge file. The chunk
     *  list is replaced before any embedding is requested, so a failed build
     *  leaves the new chunks beside the old index. */
    method BuildIndex(text: string, embed: string -> Option<Vector>) returns (outcome: BuildOutcome)
      modifies this
      ensures chunks == Chunks(text) && chunks != []
      ensures outcome == EmbeddingFailed <==> !AllEmbedded(chunks, embed)
      ensures outcome == RaggedEmbeddings <==> AllEmbedded(chunks, embed) && !Uniform(Embedded(chunks, embed))
      ensures outcome == Built ==>
        index == Some(FlatIndex(|embed(chunks[0]).value|, Embedded(chunks, embed))) && Ready()
      ensures outcome != Built ==> index == old(index)
    {
      var lines := Split(text);
      chunks := [];
      var current: seq<string> := [];
      ghost var done: seq<seq<string>> := [];
      var i := 0;
      while i < |lines|
        invariant 0 <= i <= |lines|
        invariant chunks == JoinEach(done)
        invariant (current == []) == (i == 0)
        invariant i == 0 ==> done == []
        invariant i > 0 ==> Groups(lines[..i]) == done + [current]
        invariant index == old(index)
      {
        var line := lines[i];
        assert lines[..i + 1] == lines[..i] + [line];
        GroupsSnoc(lines[..i], line);
        assert (done + [current])[..|done|] == done;
        ghost var before := if i == 0 then [] else done + [current];
        var heading := OpensChunk(line);
        if heading && current != [] {
          assert JoinEach(done + [current]) == JoinEach(done) + [Join(current)];
          chunks := chunks + [Join(current)];
          done := done + [current];
          current := [line];
          assert done + [current] == before + [[line]];
        } else {
          current := current + [line];
          assert i > 0 ==> done + [current] == before[..|done|] + [before[|done|] + [line]];
        }
        i := i + 1;
      }
      if current != [] {
        assert JoinEach(done + [current]) == JoinEach(done) + [Join(current)];
        chunks := chunks + [Join(current)];
      }
      assert lines[..i] == lines;
      ChunksNonEmpty(text);

      var embedded := EmbedChunks(chunks, embed);
      if embedded.None? {
        return EmbeddingFailed;
      }
      var embeddings := embedded.value;
      if !Uniform(embeddings) {
        return RaggedEmbeddings;
      }
      index := Some(FlatIndex(|embeddings[0]|, embeddings));
      outcome := Built;
    }

    /** `search(query, k=3)`: the query is embedded first, then the index is
     *  asked for `k` positions, which are read back from the chunk list.
     *  Nothing is changed. */
    method Search(query: string, embed: string -> Option<Vector>,
                  nearest: (FlatIndex, Vector, int) -> seq<int>, k: int := DefaultK)
      returns (r: Result<seq<string>, SearchError>)
      ensures embed(query).None? ==> r == Err(QueryEmbeddingFailed)
      ensures embed(query).Some? && index.None? ==> r == Err(NotBuilt)
      ensures embed(query).Some? && index.Some? ==>
        (|embed(query).value| != index.value.dim || k < 1 <==> r == Err(QueryRejected))
      ensures embed(query).Some? && index.Some? && |embed(query).value| == index.value.dim && k >= 1 ==>
        r == ChunksAt(chunks, nearest(index.value, embed(query).value, k))
      ensures r.Ok? ==> forall j :: 0 <= j < |r.value| ==> r.value[j] in chunks
    {
      var response := embed(query);
      if response.None? {
        return Err(QueryEmbeddingFailed);
      }
      if index.None? {
        return Err(NotBuilt);
      }
      if |response.value| != index.value.dim || k < 1 {
        return Err(QueryRejected);
      }
      var ids := nearest(index.value, response.value, k);
      r := ChunksAt(chunks, ids);
    }
  }
}
