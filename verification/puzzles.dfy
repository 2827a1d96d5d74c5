/** The word-search and matching puzzles. The word search lays the words
    into a square grid of letters along the eight straight directions,
    retrying each word a bounded number of times, fills the remaining cells
    with random letters and then collects the words the player selects. The
    matching game turns term/definition pairs into cards and lets the player
    flip two at a time. Random choices are inputs: the placement attempts,
    the fill letters and the shuffled card order. */
module Puzzles {
  import opened Util
  import opened Types

  // ----- Word-search grid ----------------------------------------------------

  /** The side of the grid for each difficulty. */
  function GridSize(d: Difficulty): (n: nat)
    ensures 10 <= n <= 15
    ensures d == Easy ==> n == 10
    ensures d == Hard ==> n == 15
  {
    match d
    case Easy => 10
    case Medium => 12
    case Hard => 15
  }

  /** A cell holds one letter, or nothing (the empty string of the original)
      until the fill pass. */
  type Grid = array2<Option<char>>

  /** One of the eight steps to a neighbouring cell. */
  predicate ValidDirection(dr: int, dc: int) {
    -1 <= dr <= 1 && -1 <= dc <= 1 && (dr != 0 || dc != 0)
  }

  /** The direction table: across, down, both diagonals and their reverses. */
  const Directions: seq<(int, int)> := [(0, 1), (1, 0), (1, 1), (-1, 1), (0, -1), (-1, 0), (-1, -1), (1, -1)]

  /** The table holds exactly the eight directions, each once. */
  lemma DirectionsAreAllNeighbours()
    ensures forall k :: 0 <= k < |Directions| ==> ValidDirection(Directions[k].0, Directions[k].1)
    ensures forall dr, dc :: ValidDirection(dr, dc) ==> (dr, dc) in Directions
    ensures NoDuplicates(Directions)
  {
    forall dr, dc | ValidDirection(dr, dc) ensures (dr, dc) in Directions {
      if dr == 0 {
        assert (dr, dc) == Directions[if dc == 1 then 0 else 4];
      } else if dc == 0 {
        assert (dr, dc) == Directions[if dr == 1 then 1 else 5];
      } else if dr == 1 {
        assert (dr, dc) == Directions[if dc == 1 then 2 else 7];
      } else {
        assert (dr, dc) == Directions[if dc == 1 then 3 else 6];
      }
    }
  }

  /** Coordinate `start + d * i` for a step `d` between -1 and 1. */
  function Along(start: int, d: int, i: int): (x: int)
    requires -1 <= d <= 1
    ensures x == start + d * i
  {
    if d == 1 then start + i else if d == -1 then start - i else start
  }

  predicate InGrid(g: Grid, r: int, c: int) {
    0 <= r < g.Length0 && 0 <= c < g.Length1
  }

  /** Letter `i` of the word can go on its cell: the cell is inside the grid
      and empty or already holds that letter. */
  predicate LetterFits(g: Grid, word: string, row: int, col: int, dr: int, dc: int, i: int)
    requires ValidDirection(dr, dc) && 0 <= i < |word|
    reads g
  {
    var r := Along(row, dr, i);
    var c := Along(col, dc, i);
    InGrid(g, r, c) && (g[r, c] == None || g[r, c] == Some(word[i]))
  }

  predicate CanPlace(g: Grid, word: string, row: int, col: int, dr: int, dc: int)
    requires ValidDirection(dr, dc)
    reads g
  {
    forall i :: 0 <= i < |word| ==> LetterFits(g, word, row, col, dr, dc, i)
  }

  /** The word reads along its path. */
  predicate WordAt(g: Grid, word: string, row: int, col: int, dr: int, dc: int)
    requires ValidDirection(dr, dc)
    reads g
  {
    forall i :: 0 <= i < |word| ==>
      InGrid(g, Along(row, dr, i), Along(col, dc, i)) && g[Along(row, dr, i), Along(col, dc, i)] == Some(word[i])
  }

  /** How many steps from (row, col) in direction (dr, dc) reach the row (or,
      for an across direction, the column) of (r, c). */
  function StepsTo(row: int, col: int, dr: int, dc: int, r: int, c: int): int
    requires ValidDirection(dr, dc)
  {
    if dr == 1 then r - row else if dr == -1 then row - r else if dc == 1 then c - col else col - c
  }

  /** (r, c) is one of the first `n` cells of the path. */
  predicate OnPath(row: int, col: int, dr: int, dc: int, n: int, r: int, c: int)
    requires ValidDirection(dr, dc)
  {
    var k := StepsTo(row, col, dr, dc, r, c);
    0 <= k < n && Along(row, dr, k) == r && Along(col, dc, k) == c
  }

  /** `canPlaceWord`: checks the cells one by one and stops at the first
      that is outside the grid or holds another letter. */
  method CanPlaceWord(g: Grid, word: string, row: int, col: int, dr: int, dc: int) returns (ok: bool)
    requires ValidDirection(dr, dc)
    ensures ok == CanPlace(g, word, row, col, dr, dc)
  {
    var i := 0;
    while i < |word|
      invariant 0 <= i <= |word|
      invariant forall k :: 0 <= k < i ==> LetterFits(g, word, row, col, dr, dc, k)
    {
      var r := Along(row, dr, i);
      var c := Along(col, dc, i);
      if r < 0 || r >= g.Length0 || c < 0 || c >= g.Length1 {
        assert !LetterFits(g, word, row, col, dr, dc, i);
        return false;
      }
      if g[r, c] != None && g[r, c] != Some(word[i]) {
        assert !LetterFits(g, word, row, col, dr, dc, i);
        return false;
      }
      i := i + 1;
    }
    return true;
  }

  /** The loop of `placeWord`: writes the letters along the path and
      touches no other cell. */
  method WriteLetters(g: Grid, word: string, row: int, col: int, dr: int, dc: int)
    requires ValidDirection(dr, dc)
    requires forall i :: 0 <= i < |word| ==> InGrid(g, Along(row, dr, i), Along(col, dc, i))
    modifies g
    ensures WordAt(g, word, row, col, dr, dc)
    ensures forall r, c :: InGrid(g, r, c) && !OnPath(row, col, dr, dc, |word|, r, c) ==> g[r, c] == old(g[r, c])
  {
    var i := 0;
    while i < |word|
      invariant 0 <= i <= |word|
      invariant forall k :: 0 <= k < i ==> g[Along(row, dr, k), Along(col, dc, k)] == Some(word[k])
      invariant forall r, c :: InGrid(g, r, c) && !OnPath(row, col, dr, dc, i, r, c) ==> g[r, c] == old(g[r, c])
    {
      g[Along(row, dr, i), Along(col, dc, i)] := Some(word[i]);
      i := i + 1;
    }
  }

  /** `placeWord`: writes the letters along the path and touches no other
      cell. After a successful `canPlaceWord` it only fills empty cells, so
      every letter already in the grid stays. */
  method PlaceWord(g: Grid, word: string, row: int, col: int, dr: int, dc: int)
    requires ValidDirection(dr, dc)
    requires forall i :: 0 <= i < |word| ==> InGrid(g, Along(row, dr, i), Along(col, dc, i))
    modifies g
    ensures WordAt(g, word, row, col, dr, dc)
    ensures forall r, c :: InGrid(g, r, c) && !OnPath(row, col, dr, dc, |word|, r, c) ==> g[r, c] == old(g[r, c])
    ensures old(CanPlace(g, word, row, col, dr, dc)) ==>
              forall r, c :: InGrid(g, r, c) && old(g[r, c]).Some? ==> g[r, c] == old(g[r, c])
    ensures CanPlace(g, word, row, col, dr, dc)
  {
    WriteLetters(g, word, row, col, dr, dc);
    if old(CanPlace(g, word, row, col, dr, dc)) {
      forall r, c | InGrid(g, r, c) && old(g[r, c]).Some? ensures g[r, c] == old(g[r, c]) {
        if OnPath(row, col, dr, dc, |word|, r, c) {
          var k := StepsTo(row, col, dr, dc, r, c);
          assert old(LetterFits(g, word, row, col, dr, dc, k));
        }
      }
    }
    assert forall k :: 0 <= k < |word| ==> LetterFits(g, word, row, col, dr, dc, k);
  }

  /** One random placement attempt: a direction and a starting cell. */
  datatype Attempt = Attempt(dr: int, dc: int, row: int, col: int)

  /** Where a word went: which word, at which of its attempts, and the path. */
  datatype Placement = Placement(word: string, wordIndex: nat, attempt: nat, dr: int, dc: int, row: int, col: int)

  const MaxAttempts: nat := 50

  /** The placement is word `wordIndex` put at its `attempt`-th attempt, one
      of the first fifty. */
  predicate PlacementFrom(p: Placement, words: seq<string>, tries: seq<seq<Attempt>>) {
    && p.wordIndex < |words| && p.wordIndex < |tries|
    && p.word == words[p.wordIndex]
    && p.attempt < MaxAttempts && p.attempt < |tries[p.wordIndex]|
    && tries[p.wordIndex][p.attempt] == Attempt(p.dr, p.dc, p.row, p.col)
    && ValidDirection(p.dr, p.dc)
  }

  predicate Readable(g: Grid, p: Placement)
    reads g
  {
    ValidDirection(p.dr, p.dc) && WordAt(g, p.word, p.row, p.col, p.dr, p.dc)
  }

  /** The attempt's path lies inside an n-by-n grid: on an empty grid, this
      is exactly when `canPlaceWord` accepts it. */
  predicate PathInside(n: int, word: string, t: Attempt) {
    && -1 <= t.dr <= 1 && -1 <= t.dc <= 1
    && forall i :: 0 <= i < |word| ==> 0 <= Along(t.row, t.dr, i) < n && 0 <= Along(t.col, t.dc, i) < n
  }

  /** On a grid with no letter yet, a word fits wherever its path is inside. */
  lemma EmptyGridFits(g: Grid, word: string, t: Attempt)
    requires ValidDirection(t.dr, t.dc) && g.Length0 == g.Length1
    requires forall r, c :: InGrid(g, r, c) ==> g[r, c] == None
    ensures CanPlace(g, word, t.row, t.col, t.dr, t.dc) <==> PathInside(g.Length0, word, t)
  {
    if PathInside(g.Length0, word, t) {
      forall i | 0 <= i < |word| ensures LetterFits(g, word, t.row, t.col, t.dr, t.dc, i) {
        assert InGrid(g, Along(t.row, t.dr, i), Along(t.col, t.dc, i));
      }
    } else if CanPlace(g, word, t.row, t.col, t.dr, t.dc) {
      forall i | 0 <= i < |word| ensures 0 <= Along(t.row, t.dr, i) < g.Length0 && 0 <= Along(t.col, t.dc, i) < g.Length0 {
        assert LetterFits(g, word, t.row, t.col, t.dr, t.dc, i);
      }
      assert false;
    }
  }

  /** The retry loop for one word: tries its attempts in order, places the
      word at the first one `canPlaceWord` accepts, and gives up after fifty.
      Returns the index of the attempt used. */
  method PlaceFirstFit(g: Grid, word: string, ts: seq<Attempt>) returns (used: Option<nat>)
    requires |ts| >= MaxAttempts
    requires forall a :: 0 <= a < |ts| ==> ValidDirection(ts[a].dr, ts[a].dc)
    modifies g
    ensures used.Some? ==> used.value < MaxAttempts
    ensures used.Some? ==> old(CanPlace(g, word, ts[used.value].row, ts[used.value].col, ts[used.value].dr, ts[used.value].dc))
    ensures used.Some? ==> forall a :: 0 <= a < used.value ==> !old(CanPlace(g, word, ts[a].row, ts[a].col, ts[a].dr, ts[a].dc))
    ensures used.None? ==> forall a :: 0 <= a < MaxAttempts ==> !old(CanPlace(g, word, ts[a].row, ts[a].col, ts[a].dr, ts[a].dc))
    ensures used.None? ==> unchanged(g)
    ensures used.Some? ==>
              var t := ts[used.value];
              && WordAt(g, word, t.row, t.col, t.dr, t.dc)
              && (forall r, c :: InGrid(g, r, c) && old(g[r, c]).Some? ==> g[r, c] == old(g[r, c]))
              && (forall r, c :: InGrid(g, r, c) && !OnPath(t.row, t.col, t.dr, t.dc, |word|, r, c) ==> g[r, c] == old(g[r, c]))
  {
    used := None;
    var attempts := 0;
    while used.None? && attempts < MaxAttempts
      invariant 0 <= attempts <= MaxAttempts
      invariant used.None? ==> unchanged(g)
      invariant used.None? ==> forall a :: 0 <= a < attempts ==> !old(CanPlace(g, word, ts[a].row, ts[a].col, ts[a].dr, ts[a].dc))
      invariant used.Some? ==> used.value < MaxAttempts
      invariant used.Some? ==>
                  var t := ts[used.value];
                  && old(CanPlace(g, word, t.row, t.col, t.dr, t.dc))
                  && (forall a :: 0 <= a < used.value ==> !old(CanPlace(g, word, ts[a].row, ts[a].col, ts[a].dr, ts[a].dc)))
                  && WordAt(g, word, t.row, t.col, t.dr, t.dc)
                  && (forall r, c :: InGrid(g, r, c) && old(g[r, c]).Some? ==> g[r, c] == old(g[r, c]))
                  && (forall r, c :: InGrid(g, r, c) && !OnPath(t.row, t.col, t.dr, t.dc, |word|, r, c) ==> g[r, c] == old(g[r, c]))
    {
      var t := ts[attempts];
      var ok := CanPlaceWord(g, word, t.row, t.col, t.dr, t.dc);
      if ok {
        forall k | 0 <= k < |word| ensures InGrid(g, Along(t.row, t.dr, k), Along(t.col, t.dc, k)) {
          assert LetterFits(g, word, t.row, t.col, t.dr, t.dc, k);
        }
        PlaceWord(g, word, t.row, t.col, t.dr, t.dc);
        used := Some(attempts);
      }
      attempts := attempts + 1;
    }
  }

  /** The first word of the list was placed. */
  predicate FirstWordPlaced(placements: seq<Placement>) {
    |placements| > 0 && placements[0].wordIndex == 0
  }

  /** `generateGrid`. `tries[w]` are the random attempts for word `w` and
      `letters` the random fill letters. Each word is tried at most fifty
      times; a word placed stays readable whatever comes after it, and no
      cell is left empty. */
  method GenerateGrid(words: seq<string>, gridSize: nat, tries: seq<seq<Attempt>>, letters: seq<seq<char>>)
      returns (g: Grid, placements: seq<Placement>)
    requires |tries| == |words|
    requires forall w :: 0 <= w < |tries| ==> |tries[w]| >= MaxAttempts
    requires forall w, a :: 0 <= w < |tries| && 0 <= a < |tries[w]| ==> ValidDirection(tries[w][a].dr, tries[w][a].dc)
    requires |letters| == gridSize && forall i :: 0 <= i < gridSize ==> |letters[i]| == gridSize
    ensures fresh(g) && g.Length0 == gridSize && g.Length1 == gridSize
    ensures forall r, c :: 0 <= r < gridSize && 0 <= c < gridSize ==> g[r, c].Some?
    ensures forall p :: p in placements ==> PlacementFrom(p, words, tries) && Readable(g, p)
    ensures forall i, j :: 0 <= i < j < |placements| ==> placements[i].wordIndex < placements[j].wordIndex
    ensures |words| > 0 ==> (FirstWordPlaced(placements) <==>
              exists a :: 0 <= a < MaxAttempts && PathInside(gridSize, words[0], tries[0][a]))
    ensures |words| > 0 && FirstWordPlaced(placements) ==>
              forall a :: 0 <= a < placements[0].attempt && a < MaxAttempts ==> !PathInside(gridSize, words[0], tries[0][a])
  {
    g := new Option<char>[gridSize, gridSize]((r, c) => None);
    placements := [];
    var w := 0;
    while w < |words|
      invariant 0 <= w <= |words|
      invariant g.Length0 == gridSize && g.Length1 == gridSize
      invariant forall p :: p in placements ==> PlacementFrom(p, words, tries) && p.wordIndex < w && Readable(g, p)
      invariant forall i, j :: 0 <= i < j < |placements| ==> placements[i].wordIndex < placements[j].wordIndex
      invariant w == 0 ==> placements == [] && forall r, c :: InGrid(g, r, c) ==> g[r, c] == None
      invariant w > 0 ==> (FirstWordPlaced(placements) <==>
                  exists a :: 0 <= a < MaxAttempts && PathInside(gridSize, words[0], tries[0][a]))
      invariant |words| > 0 && FirstWordPlaced(placements) ==>
                  forall a :: 0 <= a < placements[0].attempt && a < MaxAttempts ==> !PathInside(gridSize, words[0], tries[0][a])
    {
      if w == 0 {
        forall a | 0 <= a < MaxAttempts
          ensures CanPlace(g, words[0], tries[0][a].row, tries[0][a].col, tries[0][a].dr, tries[0][a].dc)
                  <==> PathInside(gridSize, words[0], tries[0][a])
        {
          EmptyGridFits(g, words[0], tries[0][a]);
        }
      }
      var used := PlaceFirstFit(g, words[w], tries[w]);
      if used.Some? {
        var t := tries[w][used.value];
        placements := placements + [Placement(words[w], w, used.value, t.dr, t.dc, t.row, t.col)];
      }
      w := w + 1;
    }
    var i := 0;
    while i < gridSize
      invariant 0 <= i <= gridSize
      invariant forall r, c :: 0 <= r < i && 0 <= c < gridSize ==> g[r, c].Some?
      invariant forall p :: p in placements ==> PlacementFrom(p, words, tries) && Readable(g, p)
    {
      var j := 0;
      while j < gridSize
        invariant 0 <= j <= gridSize
        invariant forall r, c :: 0 <= r < i && 0 <= c < gridSize ==> g[r, c].Some?
        invariant forall c :: 0 <= c < j ==> g[i, c].Some?
        invariant forall p :: p in placements ==> PlacementFrom(p, words, tries) && Readable(g, p)
      {
        if g[i, j] == None {
          g[i, j] := Some(letters[i][j]);
        }
        j := j + 1;
      }
      i := i + 1;
    }
  }

  // ----- Word-search selection -----------------------------------------------

  datatype CellPos = CellPos(row: int, col: int)

  /** The text of one selected cell; a cell outside the grid or still empty
      reads as the empty string. */
  function CellText(g: Grid, p: CellPos): (s: string)
    reads g
    ensures |s| <= 1
    ensures |s| == 1 <==> Filled(g, p)
  {
    if InGrid(g, p.row, p.col) && g[p.row, p.col].Some? then [g[p.row, p.col].value] else []
  }

  /** The cell is inside the grid and holds a letter. */
  predicate Filled(g: Grid, p: CellPos)
    reads g
  {
    InGrid(g, p.row, p.col) && g[p.row, p.col].Some?
  }

  /** The selected cells' letters joined in selection order: when every
      selected cell holds a letter, one letter per cell, in order. */
  function SelectedText(g: Grid, cells: seq<CellPos>): (s: string)
    reads g
    ensures |s| <= |cells|
    ensures (forall k :: 0 <= k < |cells| ==> Filled(g, cells[k])) ==>
              |s| == |cells| && forall k :: 0 <= k < |cells| ==> s[k] == g[cells[k].row, cells[k].col].value
  {
    if cells == [] then [] else SelectedText(g, cells[..|cells| - 1]) + CellText(g, cells[|cells| - 1])
  }

  /** The cells of a placement's path, from its first letter to its last. */
  function PathCells(p: Placement): (cells: seq<CellPos>)
    requires ValidDirection(p.dr, p.dc)
    ensures |cells| == |p.word|
    ensures forall i :: 0 <= i < |cells| ==> OnPath(p.row, p.col, p.dr, p.dc, |p.word|, cells[i].row, cells[i].col)
  {
    seq(|p.word|, i requires 0 <= i < |p.word| => CellPos(Along(p.row, p.dr, i), Along(p.col, p.dc, i)))
  }

  /** Selecting a placed word's cells from its first letter to its last
      reads the word. */
  lemma PlacementReadsWord(g: Grid, p: Placement)
    requires Readable(g, p)
    ensures SelectedText(g, PathCells(p)) == p.word
  {
    var cells := PathCells(p);
    assert forall k :: 0 <= k < |cells| ==> Filled(g, cells[k]);
  }

  function Reverse(s: string): (r: string)
    ensures |r| == |s|
    ensures forall i :: 0 <= i < |s| ==> r[i] == s[|s| - 1 - i]
  {
    if s == [] then [] else [s[|s| - 1]] + Reverse(s[..|s| - 1])
  }

  lemma {:induction false} ReverseReverse(s: string)
    ensures Reverse(Reverse(s)) == s
  {
    var r := Reverse(s);
    assert forall i :: 0 <= i < |s| ==> Reverse(r)[i] == r[|s| - 1 - i] == s[i];
  }

  /** The found words after a selection reading `word`: the word, or else
      its reverse, is added when it is one of the puzzle's words not yet
      found; otherwise nothing changes. */
  function FoundAfterSelection(words: seq<string>, found: seq<string>, word: string): (r: seq<string>)
    ensures word in words && word !in found ==> r == found + [word]
    ensures !(word in words && word !in found) && Reverse(word) in words && Reverse(word) !in found ==> r == found + [Reverse(word)]
    ensures !(word in words && word !in found) && !(Reverse(word) in words && Reverse(word) !in found) ==> r == found
    ensures NoDuplicates(found) ==> NoDuplicates(r)
    ensures (forall x :: x in found ==> x in words) ==> (forall x :: x in r ==> x in words)
  {
    if word in words && word !in found then found + [word]
    else if Reverse(word) in words && Reverse(word) !in found then found + [Reverse(word)]
    else found
  }

  /** The found list is a duplicate-free list of the puzzle's words. */
  predicate FoundValid(words: seq<string>, found: seq<string>) {
    NoDuplicates(found) && forall x :: x in found ==> x in words
  }

  /** The completion score for `timeElapsed` seconds: 1000 less 10 points a
      second, never below 100. */
  function WordSearchScore(timeElapsed: int): (score: int)
    ensures score >= 100
    ensures timeElapsed <= 90 ==> score == 1000 - 10 * timeElapsed
    ensures timeElapsed >= 90 ==> score == 100
  {
    if 1000 - timeElapsed * 10 > 100 then 1000 - timeElapsed * 10 else 100
  }

  lemma {:induction false} DistinctCardinality(s: seq<string>)
    requires NoDuplicates(s)
    ensures |set x | x in s| == |s|
  {
    if s != [] {
      var front := s[..|s| - 1];
      DistinctCardinality(front);
      assert (set x | x in s) == (set x | x in front) + {s[|s| - 1]};
      assert s[|s| - 1] !in front;
    }
  }

  lemma {:induction false} CardinalityAtMostLength(s: seq<string>)
    ensures |set x | x in s| <= |s|
  {
    if s != [] {
      var front := s[..|s| - 1];
      CardinalityAtMostLength(front);
      assert (set x | x in s) == (set x | x in front) + {s[|s| - 1]};
    }
  }

  /** The game ends when as many words are found as there are words; with
      no word listed twice, that means every word has been found. */
  lemma CompleteMeansAllFound(words: seq<string>, found: seq<string>)
    requires FoundValid(words, found) && NoDuplicates(words)
    requires |found| == |words|
    ensures forall w :: w in words ==> w in found
  {
    DistinctCardinality(found);
    DistinctCardinality(words);
    var f := set x | x in found;
    var a := set x | x in words;
    assert f <= a;
    var d := a - f;
    assert a == f + d && f * d == {};
    assert |a| == |f| + |d|;
    assert a == f;
    forall w | w in words ensures w in found {
      assert w in a;
    }
  }

  /** The word-search component after the grid is built. */
  class WordSearch {
    const grid: Grid
    const words: seq<string>
    var foundWords: seq<string>
    var selectedCells: seq<CellPos>
    var isSelecting: bool

    predicate Valid()
      reads this
    {
      FoundValid(words, foundWords)
    }

    constructor (g: Grid, ws: seq<string>)
      ensures grid == g && words == ws
      ensures foundWords == [] && selectedCells == [] && !isSelecting && Valid()
    {
      grid := g;
      words := ws;
      foundWords := [];
      selectedCells := [];
      isSelecting := false;
    }

    /** `handleCellMouseDown`: a selection starts at the cell. */
    method MouseDown(row: int, col: int)
      modifies this
      ensures isSelecting && selectedCells == [CellPos(row, col)] && foundWords == old(foundWords)
    {
      isSelecting := true;
      selectedCells := [CellPos(row, col)];
    }

    /** `handleCellMouseEnter` while selecting; `line` is the straight line of
        cells from the selection's start to the entered cell. */
    method MouseEnter(row: int, col: int, line: seq<CellPos>)
      modifies this
      ensures !old(isSelecting) ==> selectedCells == old(selectedCells)
      ensures old(isSelecting) && (old(selectedCells) == [] || old(selectedCells)[0] == CellPos(row, col)) ==>
                selectedCells == [CellPos(row, col)]
      ensures foundWords == old(foundWords) && isSelecting == old(isSelecting)
    {
      if isSelecting {
        if selectedCells == [] || selectedCells[0] == CellPos(row, col) {
          selectedCells := [CellPos(row, col)];
        } else {
          selectedCells := line;
        }
      }
    }

    /** `handleCellMouseUp`: a selection of two or more cells is checked,
        then the selection ends. */
    method MouseUp()
      modifies this
      ensures |old(selectedCells)| > 1 ==>
                foundWords == FoundAfterSelection(words, old(foundWords), SelectedText(grid, old(selectedCells)))
      ensures |old(selectedCells)| <= 1 ==> foundWords == old(foundWords)
      ensures !isSelecting && selectedCells == []
      ensures old(Valid()) ==> Valid()
    {
      if |selectedCells| > 1 {
        foundWords := FoundAfterSelection(words, foundWords, SelectedText(grid, selectedCells));
      }
      isSelecting := false;
      selectedCells := [];
    }

    /** The completion check: the score is reported once every word is found. */
    method Completion(timeElapsed: int) returns (score: Option<int>)
      ensures score.Some? <==> |foundWords| == |words|
      ensures score.Some? ==> score.value == WordSearchScore(timeElapsed) && score.value >= 100
    {
      if |foundWords| == |words| {
        score := Some(WordSearchScore(timeElapsed));
      } else {
        score := None;
      }
    }
  }

  // ----- Matching game -------------------------------------------------------

  datatype CardKind = TermCard | DefinitionCard

  datatype MatchCard = MatchCard(id: string, content: string, kind: CardKind, pairId: string, isFlipped: bool, isMatched: bool)

  datatype TermPair = TermPair(term: string, definition: string)

  /** The two face-down cards made from pair `i`. */
  function PairOf(i: nat, pair: TermPair): (cards: seq<MatchCard>)
    ensures |cards| == 2 && cards[0].pairId == cards[1].pairId && cards[0].id != cards[1].id
    ensures cards[0].content == pair.term && cards[1].content == pair.definition
    ensures cards[0].kind == TermCard && cards[1].kind == DefinitionCard
    ensures !cards[0].isFlipped && !cards[0].isMatched && !cards[1].isFlipped && !cards[1].isMatched
  {
    var n := NatToString(i);
    assert ("term-" + n)[0] == 't' && ("def-" + n)[0] == 'd';
    [ MatchCard("term-" + n, pair.term, TermCard, "pair-" + n, false, false),
      MatchCard("def-" + n, pair.definition, DefinitionCard, "pair-" + n, false, false) ]
  }

  /** The cards before shuffling: the term card and then the definition card
      of each pair, in pair order. */
  function PairCards(pairs: seq<TermPair>): (cards: seq<MatchCard>)
    ensures |cards| == 2 * |pairs|
    ensures forall c :: c in cards ==> !c.isFlipped && !c.isMatched
  {
    if pairs == [] then [] else PairCards(pairs[..|pairs| - 1]) + PairOf(|pairs| - 1, pairs[|pairs| - 1])
  }

  /** Pair `i` becomes cards `2i` (its term) and `2i + 1` (its definition). */
  lemma {:induction false} PairCardsLayout(pairs: seq<TermPair>)
    ensures forall i :: 0 <= i < |pairs| ==> PairCards(pairs)[2 * i..2 * i + 2] == PairOf(i, pairs[i])
    decreases |pairs|
  {
    if pairs != [] {
      var n := |pairs| - 1;
      var front := pairs[..n];
      PairCardsLayout(front);
      var cards := PairCards(pairs);
      assert cards == PairCards(front) + PairOf(n, pairs[n]);
      forall i | 0 <= i < |pairs| ensures cards[2 * i..2 * i + 2] == PairOf(i, pairs[i]) {
        if i < n {
          assert cards[2 * i..2 * i + 2] == PairCards(front)[2 * i..2 * i + 2];
          assert front[i] == pairs[i];
        } else {
          assert cards[2 * i..2 * i + 2] == PairOf(n, pairs[n]);
        }
      }
    }
  }

  /** The game state: the cards, the ids of the (at most two) selected cards,
      the matched pair ids and the number of attempts. */
  datatype MatchState = MatchState(cards: seq<MatchCard>, selectedCards: seq<string>, matches: seq<string>, attempts: int)

  /** The first card with the id (`cards.find`). */
  function FindCard(cards: seq<MatchCard>, id: string): (r: Option<MatchCard>)
    ensures r.Some? ==> r.value in cards && r.value.id == id
    ensures r.None? <==> forall c :: c in cards ==> c.id != id
  {
    if cards == [] then None
    else if cards[0].id == id then Some(cards[0])
    else FindCard(cards[1..], id)
  }

  /** The click conditions that make `handleCardClick` return at once: two
      cards are already up, this card is one of them, or it is matched. */
  predicate ClickIgnored(s: MatchState, cardId: string) {
    || |s.selectedCards| >= 2
    || cardId in s.selectedCards
    || (FindCard(s.cards, cardId).Some? && FindCard(s.cards, cardId).value.isMatched)
  }

  /** Every card whose id is in `ids` gets the given face-up and matched
      flags (`None` keeps a flag); the other cards are untouched. */
  function UpdateCards(cards: seq<MatchCard>, ids: seq<string>, flip: Option<bool>, match_: Option<bool>): (r: seq<MatchCard>)
    ensures |r| == |cards|
    ensures forall i :: 0 <= i < |cards| && cards[i].id !in ids ==> r[i] == cards[i]
    ensures forall i :: 0 <= i < |cards| && cards[i].id in ids ==>
              r[i] == cards[i].(isFlipped := if flip.Some? then flip.value else cards[i].isFlipped,
                                isMatched := if match_.Some? then match_.value else cards[i].isMatched)
  {
    seq(|cards|, i requires 0 <= i < |cards| =>
      if cards[i].id in ids then
        cards[i].(isFlipped := if flip.Some? then flip.value else cards[i].isFlipped,
                  isMatched := if match_.Some? then match_.value else cards[i].isMatched)
      else cards[i])
  }

  /** The selection the game keeps: at most two distinct ids. */
  predicate SelectionValid(s: MatchState) {
    |s.selectedCards| <= 2 && NoDuplicates(s.selectedCards)
  }

  /** `handleCardClick(cardId)`: unless ignored, the card is selected and
      turned face up, and choosing a second card counts one attempt. */
  function Click(s: MatchState, cardId: string): (r: MatchState)
    ensures ClickIgnored(s, cardId) ==> r == s
    ensures !ClickIgnored(s, cardId) ==> r.selectedCards == s.selectedCards + [cardId] && r.matches == s.matches
    ensures !ClickIgnored(s, cardId) ==> r.attempts == s.attempts + (if |s.selectedCards| == 1 then 1 else 0)
    ensures !ClickIgnored(s, cardId) ==> r.cards == UpdateCards(s.cards, [cardId], Some(true), None)
    ensures SelectionValid(s) ==> SelectionValid(r)
  {
    if ClickIgnored(s, cardId) then s
    else
      var selected := s.selectedCards + [cardId];
      MatchState(UpdateCards(s.cards, [cardId], Some(true), None), selected, s.matches,
                 if |selected| == 2 then s.attempts + 1 else s.attempts)
  }

  /** `checkMatch(ids)` for the two selected ids, which name cards of the
      game: equal pair ids mark both cards matched and record the pair;
      otherwise both turn face down. Either way the selection empties. */
  function CheckMatch(s: MatchState, ids: seq<string>): (r: MatchState)
    requires |ids| == 2 && FindCard(s.cards, ids[0]).Some? && FindCard(s.cards, ids[1]).Some?
    ensures r.selectedCards == [] && r.attempts == s.attempts
    ensures FindCard(s.cards, ids[0]).value.pairId == FindCard(s.cards, ids[1]).value.pairId ==>
              r.matches == s.matches + [FindCard(s.cards, ids[0]).value.pairId] &&
              r.cards == UpdateCards(s.cards, ids, None, Some(true))
    ensures FindCard(s.cards, ids[0]).value.pairId != FindCard(s.cards, ids[1]).value.pairId ==>
              r.matches == s.matches && r.cards == UpdateCards(s.cards, ids, Some(false), None)
    ensures forall i :: 0 <= i < |s.cards| && s.cards[i].isMatched ==> r.cards[i].isMatched
  {
    var card1 := FindCard(s.cards, ids[0]).value;
    var card2 := FindCard(s.cards, ids[1]).value;
    if card1.pairId == card2.pairId then
      MatchState(UpdateCards(s.cards, ids, None, Some(true)), [], s.matches + [card1.pairId], s.attempts)
    else
      MatchState(UpdateCards(s.cards, ids, Some(false), None), [], s.matches, s.attempts)
  }

  /** A matched card stays matched through any click. */
  lemma ClickKeepsMatched(s: MatchState, cardId: string)
    ensures forall i :: 0 <= i < |s.cards| && s.cards[i].isMatched ==> Click(s, cardId).cards[i].isMatched
  {
  }

  /** Turning up the two cards of one pair, in either order, selects both
      and costs one attempt; the check then records the pair and marks
      exactly those cards matched. */
  lemma PairFoundInOneAttempt(s: MatchState, a: MatchCard, b: MatchCard)
    requires s.selectedCards == [] && a.id != b.id && a.pairId == b.pairId
    requires FindCard(s.cards, a.id) == Some(a) && FindCard(s.cards, b.id) == Some(b)
    requires !a.isMatched && !b.isMatched
    ensures var s2 := Click(Click(s, a.id), b.id);
            && s2.selectedCards == [a.id, b.id] && s2.attempts == s.attempts + 1
            && FindCard(s2.cards, a.id).Some? && FindCard(s2.cards, b.id).Some?
            && CheckMatch(s2, [a.id, b.id]).matches == s.matches + [a.pairId]
            && CheckMatch(s2, [a.id, b.id]).cards == UpdateCards(s2.cards, [a.id, b.id], None, Some(true))
  {
    var s1 := Click(s, a.id);
    FindAfterUpdate(s.cards, b.id, [a.id], Some(true), None);
    FindAfterUpdate(s.cards, a.id, [a.id], Some(true), None);
    var s2 := Click(s1, b.id);
    FindAfterUpdate(s1.cards, a.id, [b.id], Some(true), None);
    FindAfterUpdate(s1.cards, b.id, [b.id], Some(true), None);
  }

  /** Updating cards keeps each card's id and pair id, so a search by id
      finds the updated version of the same card. */
  lemma {:induction false} FindAfterUpdate(cards: seq<MatchCard>, id: string, ids: seq<string>, flip: Option<bool>, match_: Option<bool>)
    ensures FindCard(cards, id).None? ==> FindCard(UpdateCards(cards, ids, flip, match_), id).None?
    ensures FindCard(cards, id).Some? ==> FindCard(UpdateCards(cards, ids, flip, match_), id).Some?
    ensures FindCard(cards, id).Some? ==>
              FindCard(UpdateCards(cards, ids, flip, match_), id).value.pairId == FindCard(cards, id).value.pairId
    ensures FindCard(cards, id).Some? && id !in ids ==>
              FindCard(UpdateCards(cards, ids, flip, match_), id) == FindCard(cards, id)
    ensures FindCard(cards, id).Some? && id in ids && match_.None? ==>
              FindCard(UpdateCards(cards, ids, flip, match_), id).value.isMatched == FindCard(cards, id).value.isMatched
    decreases |cards|
  {
    if cards != [] {
      var r := UpdateCards(cards, ids, flip, match_);
      assert r[1..] == UpdateCards(cards[1..], ids, flip, match_);
      FindAfterUpdate(cards[1..], id, ids, flip, match_);
    }
  }

  /** The matching-game component. */
  class MatchingGame {
    var cards: seq<MatchCard>
    var selectedCards: seq<string>
    var matches: seq<string>
    var attempts: int

    function State(): MatchState
      reads this
    {
      MatchState(cards, selectedCards, matches, attempts)
    }

    /** The game over `pairs`, with `shuffled` the random order of their cards. */
    constructor (pairs: seq<TermPair>, shuffled: seq<MatchCard>)
      requires multiset(shuffled) == multiset(PairCards(pairs))
      ensures State() == MatchState(shuffled, [], [], 0) && SelectionValid(State())
      ensures |cards| == 2 * |pairs|
      ensures forall c :: c in cards ==> !c.isFlipped && !c.isMatched
    {
      cards := shuffled;
      selectedCards := [];
      matches := [];
      attempts := 0;
      new;
      assert |multiset(shuffled)| == |multiset(PairCards(pairs))|;
      assert forall c :: c in shuffled ==> c in multiset(PairCards(pairs));
    }

    /** `handleCardClick(cardId)`; returns whether the match check is now due. */
    method HandleCardClick(cardId: string) returns (checkDue: bool)
      modifies this
      ensures State() == Click(old(State()), cardId)
      ensures checkDue <==> !ClickIgnored(old(State()), cardId) && |selectedCards| == 2
    {
      if |selectedCards| >= 2 || cardId in selectedCards {
        return false;
      }
      var found := FindCard(cards, cardId);
      if found.Some? && found.value.isMatched {
        return false;
      }
      selectedCards := selectedCards + [cardId];
      cards := UpdateCards(cards, [cardId], Some(true), None);
      checkDue := |selectedCards| == 2;
      if checkDue {
        attempts := attempts + 1;
      }
    }

    /** The delayed `checkMatch` for the two selected cards. */
    method CheckSelected()
      requires |selectedCards| == 2
      requires FindCard(cards, selectedCards[0]).Some? && FindCard(cards, selectedCards[1]).Some?
      modifies this
      ensures State() == CheckMatch(old(State()), old(selectedCards))
    {
      var card1 := FindCard(cards, selectedCards[0]).value;
      var card2 := FindCard(cards, selectedCards[1]).value;
      if card1.pairId == card2.pairId {
        cards := UpdateCards(cards, selectedCards, None, Some(true));
        matches := matches + [card1.pairId];
      } else {
        cards := UpdateCards(cards, selectedCards, Some(false), None);
      }
      selectedCards := [];
    }
  }

  // ----- Result grade --------------------------------------------------------

  datatype Grade = GradeS | GradeA | GradeB | GradeC | GradeD

  /** `getGrade(score)`: S from 900, A from 800, B from 700, C from 600, D below. */
  function GetGrade(score: int): (g: Grade)
    ensures g == GradeS <==> score >= 900
    ensures g == GradeA <==> 800 <= score < 900
    ensures g == GradeB <==> 700 <= score < 800
    ensures g == GradeC <==> 600 <= score < 700
    ensures g == GradeD <==> score < 600
  {
    if score >= 900 then GradeS
    else if score >= 800 then GradeA
    else if score >= 700 then GradeB
    else if score >= 600 then GradeC
    else GradeD
  }

  function GradeRank(g: Grade): nat {
    match g
    case GradeD => 0
    case GradeC => 1
    case GradeB => 2
    case GradeA => 3
    case GradeS => 4
  }

  /** A higher score never gets a lower grade. */
  lemma GradeMonotone(a: int, b: int)
    requires a <= b
    ensures GradeRank(GetGrade(a)) <= GradeRank(GetGrade(b))
  {
  }

  /** A word search finished within ten seconds earns an S. */
  lemma FastWordSearchGetsS(t: int)
    requires 0 <= t <= 10
    ensures GetGrade(WordSearchScore(t)) == GradeS
  {
  }
}
