/** The notebook rewriting pass that moves course notebooks from the OpenAI
    chat model to HuggingFace inference endpoints. A notebook is its list
    of cells; reading and writing the file is outside the model. */
module Notebooks {
  import opened Values
  import opened Strings

  /** A cell's `source`: a list of lines, or one string. */
  datatype Source = Lines(lines: seq<string>) | Text(text: string)

  /** A notebook cell: its type, its source and its other fields. */
  datatype Cell = Cell(cellType: string, source: Source, other: map<string, Value>)

  /** The text of a cell: its lines joined with '' (a missing source is an
      empty list). */
  function SourceText(s: Source): string {
    match s
    case Lines(lines) => Concat(lines)
    case Text(text) => text
  }

  const OpenAIImport := "from langchain_openai import ChatOpenAI"
  const EndpointImport := "from langchain_huggingface import HuggingFaceEndpoint"
  const HFModel := "repo_id=os.getenv(\"HF_LLM_MODEL\", \"meta-llama/Llama-2-7b-chat-hf\")"
  const HFToken := "huggingfacehub_api_token=HF_TOKEN"
  const MaxTokensSuffix := ",\n    max_new_tokens=512\n)"

  /** The markdown cell that announces the change. */
  const NoteCell := Cell("markdown", Lines([
    "**\U{1F4DD} Note**: This notebook has been updated to use **HuggingFace Inference Endpoints** instead of OpenAI.\n",
    "\n",
    "- \U{2705} **No local GPU required**\n",
    "- \U{2705} **Free tier available**\n",
    "- \U{2705} **Setup guide**: See `00_huggingface_setup.ipynb`\n",
    "\n",
    "**Quick Setup**:\n",
    "1. Get token from https://huggingface.co/settings/tokens\n",
    "2. Add to `.env` file: `HUGGINGFACE_TOKEN=hf_your_token_here`\n",
    "3. Run this notebook!"]), map["metadata" := Dict(map[])])

  /** The code cell that loads the HuggingFace token. */
  const SetupCell := Cell("code", Lines([
    "# \U{2699}\U{FE0F} Setup: Load HuggingFace Token\n",
    "import os\n",
    "from dotenv import load_dotenv\n",
    "\n",
    "load_dotenv()  # Load .env file from project root\n",
    "\n",
    "HF_TOKEN = os.getenv(\"HUGGINGFACE_TOKEN\")\n",
    "if not HF_TOKEN:\n",
    "    raise ValueError(\n",
    "        \"\U{274C} HUGGINGFACE_TOKEN not found!\\n\"\n",
    "        \"Please ensure .env file exists in project root with:\\n\"\n",
    "        \"HUGGINGFACE_TOKEN=hf_your_token_here\\n\"\n",
    "        \"See 00_huggingface_setup.ipynb for setup instructions.\"\n",
    "    )\n",
    "\n",
    "print(\"\U{2705} HuggingFace token loaded!\")"]),
    map["execution_count" := Null, "metadata" := Dict(map[]), "outputs" := List([])])

  // ---------------------------------------------------------------------------
  // Storing a rewritten text back into a cell
  // ---------------------------------------------------------------------------

  /** Every occurrence of `c` removed. */
  function Without(s: string, c: char): (r: string)
    ensures |r| <= |s|
    ensures c in s ==> |r| < |s|
    decreases |s|
  {
    if s == [] then ""
    else (if s[0] == c then "" else [s[0]]) + Without(s[1..], c)
  }

  /** `new_source.split('\n') if '\n' in new_source else [new_source]`, as
      the source stores a rewritten text. */
  function WrittenSourceLines(s: string): seq<string> {
    if '\n' in s then Split(s, '\n') else [s]
  }

  /** Joining the pieces of a split drops the separators. */
  lemma {:induction false} ConcatSplit(s: string, c: char)
    ensures Concat(Split(s, c)) == Without(s, c)
    decreases |s|
  {
    if s != [] {
      var rest := Split(s[1..], c);
      ConcatSplit(s[1..], c);
      if s[0] == c {
        assert Split(s, c) == [""] + rest;
        assert ([""] + rest)[1..] == rest;
      } else {
        var parts := [[s[0]] + rest[0]] + rest[1..];
        assert Split(s, c) == parts;
        assert parts[1..] == rest[1..];
        assert Concat(rest) == rest[0] + Concat(rest[1..]);
      }
    }
  }

  /** As written, a rewritten text with a line break does not survive being
      stored: the notebook reads it back without its line breaks. */
  lemma WrittenSourceLosesBreaks(s: string)
    requires '\n' in s
    ensures Concat(WrittenSourceLines(s)) == Without(s, '\n')
    ensures Concat(WrittenSourceLines(s)) != s
  {
    ConcatSplit(s, '\n');
  }

  /** The smallest case: "a\nb" is read back as "ab". */
  lemma WrittenSourceExample()
    ensures WrittenSourceLines("a\nb") == ["a", "b"]
    ensures Concat(WrittenSourceLines("a\nb")) == "ab"
  {
    SplitAround('a', 'b', '\n');
    assert "a\nb" == ['a', '\n', 'b'];
    assert Concat(["a", "b"]) == "a" + Concat(["b"]);
    assert Concat(["b"]) == "b" + Concat([]);
  }

  /** Splitting `x c y` at `c` gives the two one-character pieces. */
  lemma SplitAround(x: char, y: char, c: char)
    requires x != c && y != c
    ensures Split([x, c, y], c) == [[x], [y]]
  {
    var s := [x, c, y];
    assert s[1..] == [c, y] && s[1..][1..] == [y] && [y][1..] == [];
    assert Split([], c) == [""];
    assert Split([y], c) == [[y] + ""] + [""][1..];
    assert [y] + "" == [y] && [""][1..] == [];
    assert Split([y], c) == [[y]];
    assert Split([c, y], c) == [""] + [[y]];
    assert Split(s, c) == [[x] + ""] + [[], [y]][1..];
    assert [x] + "" == [x] && [[], [y]][1..] == [[y]];
  }

  /** The pieces of a split, each but the last followed by the separator. */
  function WithEnds(parts: seq<string>, sep: string): (r: seq<string>)
    ensures |r| == |parts|
  {
    seq(|parts|, k requires 0 <= k < |parts| => if k < |parts| - 1 then parts[k] + sep else parts[k])
  }

  /** The lines of a text split after each line break, which is how a
      notebook stores a multi-line source. */
  function SourceLines(s: string): seq<string> {
    WithEnds(Split(s, '\n'), "\n")
  }

  lemma {:induction false} ConcatWithEnds(parts: seq<string>, sep: string)
    ensures Concat(WithEnds(parts, sep)) == Join(parts, sep)
    decreases |parts|
  {
    if |parts| > 1 {
      ConcatWithEnds(parts[1..], sep);
      assert WithEnds(parts, sep)[1..] == WithEnds(parts[1..], sep);
      assert WithEnds(parts, sep)[0] == parts[0] + sep;
    } else if |parts| == 1 {
      assert WithEnds(parts, sep)[1..] == [];
    }
  }

  /** Storing a text with its line ends kept gives the same text back. */
  lemma SourceLinesRoundTrip(s: string)
    ensures Concat(SourceLines(s)) == s
    ensures '\n' !in s ==> SourceLines(s) == [s]
  {
    ConcatWithEnds(Split(s, '\n'), "\n");
    JoinSplit(s, '\n');
    SplitSingle(s, '\n');
  }

  // ---------------------------------------------------------------------------
  // Rewriting one cell
  // ---------------------------------------------------------------------------

  /** The cell imports the OpenAI chat model. */
  predicate IsImportCell(c: Cell) {
    Contains(SourceText(c.source), OpenAIImport)
  }

  /** The cell constructs the OpenAI chat model. */
  predicate IsConstructorCell(c: Cell) {
    Contains(SourceText(c.source), "ChatOpenAI(")
  }

  /** The parameter rewrites of a constructor cell, in order. */
  function RewriteArguments(s: string): string {
    var s1 := ReplaceAll(s, "ChatOpenAI(", "HuggingFaceEndpoint(");
    var s2 := ReplaceAll(s1, "model=", "repo_id=");
    var s3 := ReplaceAll(s2, "model =", "repo_id=");
    var s4 := ReplaceAll(s3, "openai_api_key=os.getenv(\"OPENAI_API_KEY\")", HFToken);
    var s5 := ReplaceAll(s4, "openai_api_key=os.getenv('OPENAI_API_KEY')", HFToken);
    var s6 := ReplaceAll(s5, "repo_id=\"gpt-3.5-turbo\"", HFModel);
    var s7 := ReplaceAll(s6, "repo_id='gpt-3.5-turbo'", HFModel);
    ReplaceAll(s7, "repo_id=\"gpt-4\"", HFModel)
  }

  /** Whether a token limit is appended: the text has none, constructs an
      endpoint and, stripped, ends with ')'. */
  predicate NeedsMaxTokens(s: string) {
    !Contains(s, "max_new_tokens") && Contains(s, "HuggingFaceEndpoint(") && EndsWith(Strip(s), ")")
  }

  /** The token limit step: the trailing ')', line breaks and spaces are
      replaced by a `max_new_tokens=512` argument and a closing ')'. */
  function AddMaxTokens(s: string): (r: string)
    ensures NeedsMaxTokens(s) ==> r == RStripChars(s, {')', '\n', ' '}) + MaxTokensSuffix
    ensures !NeedsMaxTokens(s) ==> r == s
  {
    if NeedsMaxTokens(s) then RStripChars(s, {')', '\n', ' '}) + MaxTokensSuffix else s
  }

  lemma ContainsPieces(a: string, b: string, c: string, d: string)
    requires b + c + d == MaxTokensSuffix[..] && c == "max_new_tokens"
    ensures Contains(a + MaxTokensSuffix, "max_new_tokens")
  {
    ContainsInfix(a + b, c, d);
    assert a + b + c + d == a + (b + c + d);
  }

  /** After the step the text holds a token limit and ends with ')', so a
      second application changes nothing. */
  lemma AddMaxTokensIdempotent(s: string)
    ensures NeedsMaxTokens(s) ==> Contains(AddMaxTokens(s), "max_new_tokens") && EndsWith(AddMaxTokens(s), ")")
    ensures AddMaxTokens(AddMaxTokens(s)) == AddMaxTokens(s)
  {
    if NeedsMaxTokens(s) {
      ContainsPieces(RStripChars(s, {')', '\n', ' '}), ",\n    ", "max_new_tokens", "=512\n)");
    }
  }

  /** `ChatOpenAI(...)` construction rewritten for the endpoint. */
  function RewriteConstructor(s: string): string {
    AddMaxTokens(RewriteArguments(s))
  }

  /** One turn of the loop on a cell: an import cell has its import
      replaced (and nothing else, even when it also constructs the model);
      otherwise a constructor cell has its construction rewritten; any other
      cell is kept as it is. A rewritten text is stored with its line ends
      kept. */
  function RewriteCell(c: Cell): (r: Cell)
    ensures r.cellType == c.cellType && r.other == c.other
    ensures !IsImportCell(c) && !IsConstructorCell(c) ==> r == c
    ensures IsImportCell(c) ==> SourceText(r.source) == ReplaceAll(SourceText(c.source), OpenAIImport, EndpointImport)
    ensures !IsImportCell(c) && IsConstructorCell(c) ==> SourceText(r.source) == RewriteConstructor(SourceText(c.source))
  {
    var text := SourceText(c.source);
    if Contains(text, OpenAIImport) then
      var t := ReplaceAll(text, OpenAIImport, EndpointImport);
      SourceLinesRoundTrip(t);
      c.(source := Lines(SourceLines(t)))
    else if Contains(text, "ChatOpenAI(") then
      var t := RewriteConstructor(text);
      SourceLinesRoundTrip(t);
      c.(source := Lines(SourceLines(t)))
    else c
  }

  /** A rewritten import cell holds the endpoint import. */
  lemma ImportCellRewritten(c: Cell)
    requires IsImportCell(c)
    ensures Contains(SourceText(RewriteCell(c).source), EndpointImport)
  {
    ReplacePresent(SourceText(c.source), OpenAIImport, EndpointImport);
  }

  // ---------------------------------------------------------------------------
  // The pass over a notebook
  // ---------------------------------------------------------------------------

  /** `f` applied to every cell, in order. */
  function Map(f: Cell -> Cell, cells: seq<Cell>): (r: seq<Cell>)
    ensures |r| == |cells|
    ensures forall k :: 0 <= k < |cells| ==> r[k] == f(cells[k])
    decreases |cells|
  {
    if cells == [] then []
    else Map(f, cells[..|cells| - 1]) + [f(cells[|cells| - 1])]
  }

  lemma MapConcat(f: Cell -> Cell, a: seq<Cell>, b: seq<Cell>)
    ensures Map(f, a + b) == Map(f, a) + Map(f, b)
  {
    assert forall k :: 0 <= k < |a + b| ==> Map(f, a + b)[k] == (Map(f, a) + Map(f, b))[k];
  }

  lemma MapSnoc(f: Cell -> Cell, cells: seq<Cell>, i: nat, j: nat)
    requires i <= j < |cells|
    ensures Map(f, cells[i..j + 1]) == Map(f, cells[i..j]) + [f(cells[j])]
  {
    assert cells[i..j + 1][..j - i] == cells[i..j];
  }

  /** Every cell rewritten, in order. */
  function Rewritten(cells: seq<Cell>): (r: seq<Cell>) {
    Map(RewriteCell, cells)
  }

  /** Some cell satisfies `p`. */
  predicate HasWhere(p: Cell -> bool, cells: seq<Cell>) {
    exists k :: 0 <= k < |cells| && p(cells[k])
  }

  /** The position of the first cell that satisfies `p`. */
  function FirstWhere(p: Cell -> bool, cells: seq<Cell>): (f: nat)
    requires HasWhere(p, cells)
    ensures f < |cells| && p(cells[f])
    ensures forall k :: 0 <= k < f ==> !p(cells[k])
    decreases |cells|
  {
    if p(cells[0]) then 0
    else
      var k :| 0 <= k < |cells| && p(cells[k]);
      assert p(cells[1..][k - 1]);
      1 + FirstWhere(p, cells[1..])
  }

  /** Some cell imports the OpenAI chat model. */
  predicate HasImport(cells: seq<Cell>) {
    HasWhere(IsImportCell, cells)
  }

  /** The position of the first import cell. */
  function FirstImport(cells: seq<Cell>): (f: nat)
    requires HasImport(cells)
  {
    FirstWhere(IsImportCell, cells)
  }

  /** `update_notebook_cells` on a notebook's cells. It reports whether the
      notebook imports the OpenAI chat model, in which case the new cells
      are written back: the rewritten cells in their order, with the note
      and the setup cell inserted once, just before the first import cell.
      Otherwise nothing is written. */
  method UpdateNotebookCells(cells: seq<Cell>) returns (updated: bool, updatedCells: seq<Cell>)
    ensures updated <==> HasImport(cells)
    ensures !updated ==> updatedCells == Rewritten(cells)
    ensures updated ==>
      var f := FirstImport(cells);
      && |updatedCells| == |cells| + 2
      && updatedCells == Rewritten(cells[..f]) + [NoteCell, SetupCell] + Rewritten(cells[f..])
      && updatedCells[f] == NoteCell && updatedCells[f + 1] == SetupCell
      && updatedCells[..f] + updatedCells[f + 2..] == Rewritten(cells)
  {
    updated, updatedCells := RewriteCells(IsImportCell, RewriteCell, NoteCell, SetupCell, cells);
  }

  /** The loop of `update_notebook_cells`: each cell is rewritten by `f`;
      before the first cell that passes the import test `p` the note and the
      setup cell are appended, each guarded by its own flag. */
  method RewriteCells(p: Cell -> bool, f: Cell -> Cell, note: Cell, setup: Cell, cells: seq<Cell>)
    returns (found: bool, updatedCells: seq<Cell>)
    ensures found <==> HasWhere(p, cells)
    ensures !found ==> updatedCells == Map(f, cells)
    ensures found ==>
      var first := FirstWhere(p, cells);
      && |updatedCells| == |cells| + 2
      && updatedCells == Map(f, cells[..first]) + [note, setup] + Map(f, cells[first..])
      && updatedCells[first] == note && updatedCells[first + 1] == setup
      && updatedCells[..first] + updatedCells[first + 2..] == Map(f, cells)
  {
    updatedCells := [];
    var addedSetup, addedNote := false, false;
    found := false;
    for i := 0 to |cells|
      invariant addedNote == found && addedSetup == found
      invariant Progress(p, f, note, setup, cells, i, found, updatedCells)
    {
      var cell := cells[i];
      ghost var before, wasFound := updatedCells, found;
      if p(cell) {
        found := true;
        if !addedNote {
          updatedCells := updatedCells + [note];
          addedNote := true;
        }
        if !addedSetup {
          updatedCells := updatedCells + [setup];
          addedSetup := true;
        }
      }
      updatedCells := updatedCells + [f(cell)];
      if p(cell) && !wasFound {
        assert updatedCells == before + [note, setup] + [f(cell)];
      }
      RewriteStep(p, f, note, setup, cells, i, wasFound, before, updatedCells);
    }
    RewriteDone(p, f, note, setup, cells, found, updatedCells);
  }

  /** What the loop of `RewriteCells` has built after `i` cells. */
  ghost predicate Progress(p: Cell -> bool, f: Cell -> Cell, note: Cell, setup: Cell,
                           cells: seq<Cell>, i: nat, found: bool, updatedCells: seq<Cell>)
  {
    && i <= |cells|
    && (found <==> HasWhere(p, cells[..i]))
    && (!found ==> updatedCells == Map(f, cells[..i]))
    && (found ==>
          HasWhere(p, cells) && FirstWhere(p, cells) < i
          && updatedCells == Map(f, cells[..FirstWhere(p, cells)]) + [note, setup] + Map(f, cells[FirstWhere(p, cells)..i]))
  }

  lemma RewriteStep(p: Cell -> bool, f: Cell -> Cell, note: Cell, setup: Cell, cells: seq<Cell>,
                    i: nat, found: bool, before: seq<Cell>, after: seq<Cell>)
    requires i < |cells| && Progress(p, f, note, setup, cells, i, found, before)
    requires after == (if p(cells[i]) && !found then before + [note, setup] else before) + [f(cells[i])]
    ensures Progress(p, f, note, setup, cells, i + 1, found || p(cells[i]), after)
  {
    LoopStep(p, f, cells, i, found);
    if found || p(cells[i]) {
      var first := FirstWhere(p, cells);
      if found {
        Regroup(Map(f, cells[..first]), [note, setup], Map(f, cells[first..i]), [f(cells[i])]);
      } else {
        assert cells[i..i] == [];
        MapSnoc(f, cells, i, i);
      }
    }
  }

  lemma RewriteDone(p: Cell -> bool, f: Cell -> Cell, note: Cell, setup: Cell, cells: seq<Cell>,
                    found: bool, updatedCells: seq<Cell>)
    requires Progress(p, f, note, setup, cells, |cells|, found, updatedCells)
    ensures found <==> HasWhere(p, cells)
    ensures !found ==> updatedCells == Map(f, cells)
    ensures found ==>
      var first := FirstWhere(p, cells);
      && |updatedCells| == |cells| + 2
      && updatedCells == Map(f, cells[..first]) + [note, setup] + Map(f, cells[first..])
      && updatedCells[first] == note && updatedCells[first + 1] == setup
      && updatedCells[..first] + updatedCells[first + 2..] == Map(f, cells)
  {
    assert cells[..|cells|] == cells;
    if found {
      InsertedMap(f, note, setup, cells, FirstWhere(p, cells), updatedCells);
    }
  }

  lemma InsertedMap(f: Cell -> Cell, note: Cell, setup: Cell, cells: seq<Cell>, first: nat, updatedCells: seq<Cell>)
    requires first <= |cells|
    requires updatedCells == Map(f, cells[..first]) + [note, setup] + Map(f, cells[first..])
    ensures |updatedCells| == |cells| + 2
    ensures updatedCells[first] == note && updatedCells[first + 1] == setup
    ensures updatedCells[..first] + updatedCells[first + 2..] == Map(f, cells)
  {
    assert cells[..first] + cells[first..] == cells;
    MapConcat(f, cells[..first], cells[first..]);
    Inserted(Map(f, cells[..first]), note, setup, Map(f, cells[first..]));
  }

  lemma Regroup(a: seq<Cell>, b: seq<Cell>, c: seq<Cell>, d: seq<Cell>)
    ensures a + b + c + d == a + b + (c + d)
  {
  }

  /** Two cells inserted between `a` and `b`. */
  lemma Inserted(a: seq<Cell>, x: Cell, y: Cell, b: seq<Cell>)
    ensures var s := a + [x, y] + b;
      && |s| == |a| + |b| + 2
      && s[|a|] == x && s[|a| + 1] == y
      && s[..|a|] + s[|a| + 2..] == a + b
  {
    var s := a + [x, y] + b;
    assert s[..|a|] == a;
    assert s[|a| + 2..] == b;
  }

  lemma HasWhereSnoc(p: Cell -> bool, cells: seq<Cell>, i: nat)
    requires i < |cells|
    ensures HasWhere(p, cells[..i + 1]) <==> HasWhere(p, cells[..i]) || p(cells[i])
  {
    var next := cells[..i + 1];
    if HasWhere(p, cells[..i]) {
      var k :| 0 <= k < i && p(cells[..i][k]);
      assert next[k] == cells[..i][k];
    }
    if p(cells[i]) {
      assert next[i] == cells[i];
    }
    if HasWhere(p, next) {
      var k :| 0 <= k < i + 1 && p(next[k]);
      if k < i {
        assert cells[..i][k] == next[k];
      }
    }
  }

  /** A match among the first `i` cells puts the first match before `i`. */
  lemma HasWherePrefix(p: Cell -> bool, cells: seq<Cell>, i: nat)
    requires i <= |cells| && HasWhere(p, cells[..i])
    ensures HasWhere(p, cells) && FirstWhere(p, cells) < i
  {
    var k :| 0 <= k < i && p(cells[..i][k]);
    assert p(cells[k]);
  }

  /** With no match among the first `i` cells, a match at `i` is the
      first. */
  lemma FirstWhereAt(p: Cell -> bool, cells: seq<Cell>, i: nat)
    requires i < |cells| && !HasWhere(p, cells[..i]) && p(cells[i])
    ensures HasWhere(p, cells) && FirstWhere(p, cells) == i
  {
  }

  /** The facts one turn of the loop needs about the cells seen so far,
      for any test `p` and any rewrite `f`. */
  lemma LoopStep(p: Cell -> bool, f: Cell -> Cell, cells: seq<Cell>, i: nat, wasFound: bool)
    requires i < |cells|
    requires wasFound <==> HasWhere(p, cells[..i])
    ensures HasWhere(p, cells[..i + 1]) <==> wasFound || p(cells[i])
    ensures Map(f, cells[..i + 1]) == Map(f, cells[..i]) + [f(cells[i])]
    ensures HasWhere(p, cells[..i + 1]) ==> HasWhere(p, cells) && FirstWhere(p, cells) <= i
    ensures !wasFound && p(cells[i]) ==> FirstWhere(p, cells) == i
    ensures wasFound ==>
      && FirstWhere(p, cells) < i
      && Map(f, cells[FirstWhere(p, cells)..i + 1]) == Map(f, cells[FirstWhere(p, cells)..i]) + [f(cells[i])]
  {
    MapSnoc(f, cells, 0, i);
    assert cells[0..i + 1] == cells[..i + 1] && cells[0..i] == cells[..i];
    HasWhereSnoc(p, cells, i);
    if wasFound {
      HasWherePrefix(p, cells, i);
      MapSnoc(f, cells, FirstWhere(p, cells), i);
    } else if p(cells[i]) {
      FirstWhereAt(p, cells, i);
    }
  }
}
