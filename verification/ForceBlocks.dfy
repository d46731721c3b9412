/** The streaming reader of TOTAL-FORCE blocks and what the blocks mean.

    Force norms are compared as squares, so a reported value is |F|max squared. */
module ForceBlocks {

  datatype Option<T> = None | Some(value: T)

  /** A whitespace separated field: a readable number, a run of dashes, or anything else. */
  datatype Field = Number(value: real) | Dashes | Word

  datatype Line = Line(bytes: nat, header: bool, fields: seq<Field>)

  datatype Limits = Limits(blocks: Option<nat>, rows: Option<nat>, bytes: Option<nat>)

  datatype Error = InvalidLimit | TooManyBlocks | TooManyRows | LineTooLong

  datatype Parse =
    | Parsed(values: seq<real>, trailingComplete: bool)
    | Rejected(error: Error)

  // ---- what the text means ----------------------------------------------------

  /** The rows below one header; a block is closed when some line ends it. */
  datatype Block = Block(rows: seq<Line>, closed: bool)

  predicate IsRow(line: Line) {
    !line.header && |line.fields| == 6
  }

  predicate IsSeparator(line: Line) {
    !line.header && line.fields == [Dashes]
  }

  /** Fortran prints a force that overflows its column as stars: six fields, not numbers. */
  predicate Readable(line: Line) {
    |line.fields| == 6 && line.fields[3].Number? && line.fields[4].Number? && line.fields[5].Number?
  }

  function Norm(line: Line): (n: real)
    requires Readable(line)
  {
    var x, y, z := line.fields[3].value, line.fields[4].value, line.fields[5].value;
    x * x + y * y + z * z
  }

  /** Number of leading lines that are force rows. */
  function RowRun(lines: seq<Line>): (n: nat)
    ensures n <= |lines|
    ensures forall i :: 0 <= i < n ==> IsRow(lines[i])
    ensures n < |lines| ==> !IsRow(lines[n])
  {
    if |lines| > 0 && IsRow(lines[0]) then 1 + RowRun(lines[1..]) else 0
  }

  /** Where the rows of a block begin: one dashed line under the header is skipped. */
  function BodyStart(lines: seq<Line>): (n: nat)
    requires |lines| > 0
    ensures 1 <= n <= |lines|
  {
    if |lines| > 1 && IsSeparator(lines[1]) then 2 else 1
  }

  function Split(lines: seq<Line>): seq<Block> {
    if lines == [] then []
    else if !lines[0].header then Split(lines[1..])
    else
      var start := BodyStart(lines);
      var end := start + RowRun(lines[start..]);
      [Block(lines[start..end], end < |lines|)] + Split(lines[end..])
  }

  predicate HasForce(rows: seq<Line>) {
    exists i :: 0 <= i < |rows| && Readable(rows[i])
  }

  /** Largest squared force of the readable rows; zero when there is none. */
  function MaxNorm(rows: seq<Line>): real {
    if rows == [] then 0.0
    else
      var m, last := MaxNorm(rows[..|rows| - 1]), rows[|rows| - 1];
      if Readable(last) && Norm(last) > m then Norm(last) else m
  }

  predicate Reported(block: Block, requireTerminated: bool) {
    HasForce(block.rows) && (block.closed || !requireTerminated)
  }

  function Values(blocks: seq<Block>, requireTerminated: bool): seq<real> {
    if blocks == [] then []
    else
      Values(blocks[..|blocks| - 1], requireTerminated)
      + (if Reported(blocks[|blocks| - 1], requireTerminated) then [MaxNorm(blocks[|blocks| - 1].rows)] else [])
  }

  predicate Above(limit: Option<nat>, n: nat) {
    limit.Some? && n > limit.value
  }

  ghost predicate Allowed(lines: seq<Line>, limits: Limits, requireTerminated: bool) {
    && (forall i :: 0 <= i < |lines| ==> !Above(limits.bytes, lines[i].bytes))
    && (forall b :: b in Split(lines) ==> !Above(limits.rows, |b.rows|))
    && !Above(limits.blocks, |Values(Split(lines), requireTerminated)|)
  }

  predicate ValidLimit(limit: Option<nat>) {
    limit.Some? ==> limit.value >= 1
  }

  // ---- lemmas about the meaning -------------------------------------------------

  /** A reported value is attained by a readable row and bounds every readable row. */
  lemma {:induction false} MaxNormIsMaximum(rows: seq<Line>)
    ensures forall i :: 0 <= i < |rows| && Readable(rows[i]) ==> Norm(rows[i]) <= MaxNorm(rows)
    ensures HasForce(rows) ==> exists i :: 0 <= i < |rows| && Readable(rows[i]) && Norm(rows[i]) == MaxNorm(rows)
    ensures MaxNorm(rows) >= 0.0
    ensures !HasForce(rows) ==> MaxNorm(rows) == 0.0
  {
    if rows != [] {
      var init, last := rows[..|rows| - 1], rows[|rows| - 1];
      MaxNormIsMaximum(init);
      if Readable(last) && Norm(last) > MaxNorm(init) {
        assert Norm(rows[|rows| - 1]) == MaxNorm(rows);
      } else if HasForce(init) {
        var i :| 0 <= i < |init| && Readable(init[i]) && Norm(init[i]) == MaxNorm(init);
        assert Norm(rows[i]) == MaxNorm(rows);
      } else if Readable(last) {
        assert Norm(last) >= 0.0;
        assert Norm(rows[|rows| - 1]) == MaxNorm(rows);
      }
    }
  }

  lemma RowRunIs(lines: seq<Line>, n: nat)
    requires n <= |lines|
    requires forall i :: 0 <= i < n ==> IsRow(lines[i])
    requires n < |lines| ==> !IsRow(lines[n])
    ensures RowRun(lines) == n
  {
  }

  lemma ValuesAppend(blocks: seq<Block>, block: Block, requireTerminated: bool)
    ensures Values(blocks + [block], requireTerminated)
         == Values(blocks, requireTerminated)
            + (if Reported(block, requireTerminated) then [MaxNorm(block.rows)] else [])
  {
    assert (blocks + [block])[..|blocks|] == blocks;
  }

  lemma MaxNormAppend(rows: seq<Line>, row: Line)
    ensures MaxNorm(rows + [row]) == if Readable(row) && Norm(row) > MaxNorm(rows) then Norm(row) else MaxNorm(rows)
    ensures HasForce(rows + [row]) <==> HasForce(rows) || Readable(row)
  {
    assert (rows + [row])[..|rows|] == rows;
    if HasForce(rows) {
      var i :| 0 <= i < |rows| && Readable(rows[i]);
      assert Readable((rows + [row])[i]);
    }
    assert (rows + [row])[|rows|] == row;
  }

  // ---- the reader --------------------------------------------------------------

  /** The block that starts at header h is over at line i. */
  lemma BlockEnds(lines: seq<Line>, h: nat, start: nat, i: nat)
    requires h < start <= i <= |lines| && lines[h].header
    requires start == h + BodyStart(lines[h..])
    requires forall k :: start <= k < i ==> IsRow(lines[k])
    requires i < |lines| ==> !IsRow(lines[i])
    ensures Split(lines[h..]) == [Block(lines[start..i], i < |lines|)] + Split(lines[i..])
  {
    var tail, from, to := lines[h..], start - h, i - h;
    assert lines[start..] == tail[from..] by { SliceOfTail(lines, h, from, |tail|); }
    RowRunIs(lines[start..], i - start);
    assert lines[start..i] == tail[from..to] by { SliceOfTail(lines, h, from, to); }
    assert lines[i..] == tail[to..] by { SliceOfTail(lines, h, to, |tail|); }
    assert from == BodyStart(tail) && to == from + RowRun(tail[from..]);
  }

  lemma SliceOfTail(lines: seq<Line>, h: nat, from: nat, to: nat)
    requires h + from <= h + to <= |lines|
    ensures lines[h..][from..to] == lines[h + from..h + to]
    ensures lines[h..][from..] == lines[h + from..]
  {
  }

  lemma SkipLine(lines: seq<Line>, i: nat)
    requires i < |lines| && !lines[i].header
    ensures Split(lines[i..]) == Split(lines[i + 1..])
  {
    assert lines[i..][1..] == lines[i + 1..];
  }

  /** The error is one that the text really has. */
  ghost predicate Justified(lines: seq<Line>, limits: Limits, requireTerminated: bool, error: Error) {
    match error
    case InvalidLimit => !ValidLimit(limits.blocks) || !ValidLimit(limits.rows) || !ValidLimit(limits.bytes)
    case TooManyBlocks => Above(limits.blocks, |Values(Split(lines), requireTerminated)|)
    case TooManyRows => exists b :: b in Split(lines) && Above(limits.rows, |b.rows|)
    case LineTooLong => exists i :: 0 <= i < |lines| && Above(limits.bytes, lines[i].bytes)
  }

  lemma {:induction false} ValuesPrefix(done: seq<Block>, rest: seq<Block>, requireTerminated: bool)
    ensures Values(done + rest, requireTerminated)
         == Values(done, requireTerminated) + Values(rest, requireTerminated)
    decreases |rest|
  {
    if rest == [] {
      assert done + rest == done;
    } else {
      var init, last := rest[..|rest| - 1], rest[|rest| - 1];
      ValuesPrefix(done, init, requireTerminated);
      assert done + rest == (done + init) + [last];
      ValuesAppend(done + init, last, requireTerminated);
      assert init + [last] == rest;
    }
  }

  /** A block of which `rows` has been read and which is followed by more text keeps those rows. */
  lemma OpenBlockKeepsRows(lines: seq<Line>, h: nat, start: nat, i: nat)
    requires h < start <= i <= |lines| && lines[h].header
    requires start == h + BodyStart(lines[h..])
    requires forall k :: start <= k < i ==> IsRow(lines[k])
    ensures |Split(lines[h..])| > 0 && |Split(lines[h..])[0].rows| >= i - start
  {
    var n := RowRun(lines[start..]);
    assert start + n >= i;
    BlockEnds(lines, h, start, start + n);
  }

  /** The variables of the reader between two lines. */
  datatype State = State(fmax: seq<real>, inBlock: bool, found: bool, curMax: real, pending: bool, forceRows: nat)

  /** What has been read: the blocks that are over, and where the open one and its rows began. */
  datatype Place = Place(done: seq<Block>, h: nat, start: nat)

  ghost predicate OpenBlock(lines: seq<Line>, i: nat, limits: Limits, p: Place, s: State)
    requires i <= |lines|
  {
    && p.h < i && lines[p.h].header && Split(lines) == p.done + Split(lines[p.h..])
    && (s.pending ==> i == p.h + 1 && s.forceRows == 0 && !s.found && s.curMax == 0.0)
    && (!s.pending ==>
          && p.h < p.start <= i && p.start == p.h + BodyStart(lines[p.h..])
          && (forall k :: p.start <= k < i ==> IsRow(lines[k]))
          && s.forceRows == i - p.start && !Above(limits.rows, s.forceRows)
          && s.found == HasForce(lines[p.start..i])
          && s.curMax == MaxNorm(lines[p.start..i]))
  }

  ghost predicate Reading(lines: seq<Line>, i: nat, requireTerminated: bool, limits: Limits, p: Place, s: State)
  {
    && i <= |lines|
    && s.fmax == Values(p.done, requireTerminated)
    && (forall b :: b in p.done ==> b.closed && !Above(limits.rows, |b.rows|))
    && !Above(limits.blocks, |s.fmax|)
    && (forall k :: 0 <= k < i ==> !Above(limits.bytes, lines[k].bytes))
    && (!s.inBlock ==> Split(lines) == p.done + Split(lines[i..]))
    && (s.inBlock ==> OpenBlock(lines, i, limits, p, s))
  }

  ghost function CurrentBlock(lines: seq<Line>, i: nat, p: Place, s: State): Block
    requires i <= |lines| && (!s.pending ==> p.start <= i)
  {
    Block(if s.pending then [] else lines[p.start..i], i < |lines|)
  }

  /** At a line that is no row the open block is complete, and its value counts towards the limit. */
  lemma FinishBlock(lines: seq<Line>, i: nat, requireTerminated: bool, limits: Limits, p: Place, s: State)
    requires Reading(lines, i, requireTerminated, limits, p, s) && s.inBlock
    requires i < |lines| ==> !IsRow(lines[i]) && (s.pending ==> !IsSeparator(lines[i]))
    ensures var block := CurrentBlock(lines, i, p, s);
            && Split(lines) == (p.done + [block]) + Split(lines[i..])
            && !Above(limits.rows, |block.rows|)
            && Values(p.done + [block], requireTerminated)
               == s.fmax + (if s.found && (i < |lines| || !requireTerminated) then [s.curMax] else [])
            && |Values(Split(lines), requireTerminated)| >= |Values(p.done + [block], requireTerminated)|
  {
    hide Split, MaxNorm, Values, RowRun;
    var block := CurrentBlock(lines, i, p, s);
    if s.pending {
      assert i < |lines| ==> lines[p.h..][1] == lines[i];
      BlockEnds(lines, p.h, i, i);
      assert lines[i..i] == [];
    } else {
      BlockEnds(lines, p.h, p.start, i);
    }
    assert p.done + ([block] + Split(lines[i..])) == (p.done + [block]) + Split(lines[i..]);
    ValuesAppend(p.done, block, requireTerminated);
    ValuesPrefix(p.done + [block], Split(lines[i..]), requireTerminated);
  }

  /** Committing the open block leaves the reader outside any block, unless the limit is passed. */
  lemma CloseBlock(lines: seq<Line>, i: nat, requireTerminated: bool, limits: Limits, p: Place, s: State)
    requires Reading(lines, i, requireTerminated, limits, p, s) && s.inBlock
    requires i < |lines| && !IsRow(lines[i]) && (s.pending ==> !IsSeparator(lines[i]))
    ensures var fmax := if s.found then s.fmax + [s.curMax] else s.fmax;
            if Above(limits.blocks, |fmax|) then
              Above(limits.blocks, |Values(Split(lines), requireTerminated)|)
            else
              Reading(lines, i, requireTerminated, limits,
                      p.(done := p.done + [CurrentBlock(lines, i, p, s)]), State(fmax, false, false, 0.0, false, 0))
  {
    hide Split, MaxNorm, Values, RowRun, HasForce;
    FinishBlock(lines, i, requireTerminated, limits, p, s);
    assert s.fmax + [] == s.fmax;
  }

  lemma NextLine(lines: seq<Line>, i: nat, requireTerminated: bool, limits: Limits, p: Place, s: State)
    requires Reading(lines, i, requireTerminated, limits, p, s) && !s.inBlock
    requires i < |lines| && !Above(limits.bytes, lines[i].bytes)
    ensures lines[i].header ==>
              Reading(lines, i + 1, requireTerminated, limits, p.(h := i), State(s.fmax, true, false, 0.0, true, 0))
    ensures !lines[i].header ==> Reading(lines, i + 1, requireTerminated, limits, p, s)
  {
    if !lines[i].header { SkipLine(lines, i); }
  }

  /** At the end of the text the open block, if any, is the last one and is not closed. */
  lemma FinishText(lines: seq<Line>, requireTerminated: bool, limits: Limits, p: Place, s: State)
    requires Reading(lines, |lines|, requireTerminated, limits, p, s)
    ensures Values(Split(lines), requireTerminated)
         == if s.inBlock && s.found && !requireTerminated then s.fmax + [s.curMax] else s.fmax
    ensures forall b :: b in Split(lines) ==> !Above(limits.rows, |b.rows|)
    ensures !s.inBlock <==> forall b :: b in Split(lines) ==> b.closed
    ensures forall k :: 0 <= k < |lines| ==> !Above(limits.bytes, lines[k].bytes)
  {
    assert lines[|lines|..] == [] && Split([]) == [];
    hide MaxNorm, RowRun, HasForce, Values, Split;
    if s.inBlock {
      FinishBlock(lines, |lines|, requireTerminated, limits, p, s);
      var block := CurrentBlock(lines, |lines|, p, s);
      assert Split(lines) == p.done + [block];
      assert block in Split(lines);
    } else {
      assert Split(lines) == p.done;
    }
  }

  lemma ExtendRows(lines: seq<Line>, start: nat, i: nat)
    requires start <= i < |lines|
    ensures MaxNorm(lines[start..i + 1])
         == if Readable(lines[i]) && Norm(lines[i]) > MaxNorm(lines[start..i]) then Norm(lines[i])
            else MaxNorm(lines[start..i])
    ensures HasForce(lines[start..i + 1]) <==> HasForce(lines[start..i]) || Readable(lines[i])
  {
    MaxNormAppend(lines[start..i], lines[i]);
    assert lines[start..i] + [lines[i]] == lines[start..i + 1];
  }

  ghost function WithRow(s: State, line: Line): State {
    s.(forceRows := s.forceRows + 1, found := s.found || Readable(line),
       curMax := if Readable(line) && Norm(line) > s.curMax then Norm(line) else s.curMax)
  }

  /** A force row extends the open block. */
  lemma ReadRow(lines: seq<Line>, i: nat, requireTerminated: bool, limits: Limits, p: Place, s: State)
    requires Reading(lines, i, requireTerminated, limits, p, s) && s.inBlock && !s.pending
    requires i < |lines| && IsRow(lines[i]) && !Above(limits.bytes, lines[i].bytes)
    requires !Above(limits.rows, s.forceRows + 1)
    ensures Reading(lines, i + 1, requireTerminated, limits, p, WithRow(s, lines[i]))
  {
    hide Split, MaxNorm, Values, RowRun, HasForce, BodyStart, Readable, Norm;
    ExtendRows(lines, p.start, i);
  }

  lemma TooManyRowsIsReal(lines: seq<Line>, i: nat, requireTerminated: bool, limits: Limits, p: Place, s: State)
    requires Reading(lines, i, requireTerminated, limits, p, s) && s.inBlock && !s.pending
    requires i < |lines| && IsRow(lines[i]) && Above(limits.rows, s.forceRows + 1)
    ensures exists b :: b in Split(lines) && Above(limits.rows, |b.rows|)
  {
    hide Split, MaxNorm, Values, RowRun, HasForce, BodyStart;
    OpenBlockKeepsRows(lines, p.h, p.start, i + 1);
    assert Split(lines[p.h..])[0] in Split(lines);
  }

  /** The line under a header is either the rule that is skipped or already the block's first line. */
  lemma EnterBody(lines: seq<Line>, i: nat, requireTerminated: bool, limits: Limits, p: Place, s: State)
    requires Reading(lines, i, requireTerminated, limits, p, s) && s.inBlock && s.pending
    requires i < |lines| && !lines[i].header && !Above(limits.bytes, lines[i].bytes)
    ensures var start := if IsSeparator(lines[i]) then i + 1 else i;
            Reading(lines, start, requireTerminated, limits, p.(start := start), s.(pending := false))
  {
    assert lines[p.h..][1] == lines[i];
    assert lines[i..i] == [] && lines[i + 1..i + 1] == [];
  }

  /** Commits the open block at a line that ends it. */
  method Commit(lines: seq<Line>, i: nat, limits: Limits, requireTerminated: bool, ghost p0: Place, s0: State)
    returns (error: Option<Error>, ghost p: Place, s: State)
    requires Reading(lines, i, requireTerminated, limits, p0, s0) && s0.inBlock
    requires i < |lines| && !IsRow(lines[i]) && (s0.pending ==> !IsSeparator(lines[i]))
    ensures error.Some? ==> Justified(lines, limits, requireTerminated, error.value) && error.value != InvalidLimit
    ensures error.None? ==> !s.inBlock && Reading(lines, i, requireTerminated, limits, p, s)
  {
    hide Split, MaxNorm, Values, RowRun, HasForce;
    CloseBlock(lines, i, requireTerminated, limits, p0, s0);
    p := p0.(done := p0.done + [CurrentBlock(lines, i, p0, s0)]);
    error, s := None, State(s0.fmax, false, false, 0.0, false, 0);
    if s0.found {
      if limits.blocks.Some? && |s0.fmax| >= limits.blocks.value {
        error := Some(TooManyBlocks);
        return;
      }
      s := s.(fmax := s0.fmax + [s0.curMax]);
    }
  }

  /** Counts and compares one line of the open block that has six fields. */
  method CountRow(lines: seq<Line>, i: nat, limits: Limits, requireTerminated: bool, ghost p: Place, s0: State)
    returns (error: Option<Error>, s: State)
    requires Reading(lines, i, requireTerminated, limits, p, s0) && s0.inBlock && !s0.pending
    requires i < |lines| && IsRow(lines[i]) && !Above(limits.bytes, lines[i].bytes)
    ensures error.Some? ==> Justified(lines, limits, requireTerminated, error.value) && error.value != InvalidLimit
    ensures error.None? ==> Reading(lines, i + 1, requireTerminated, limits, p, s)
  {
    hide Split, MaxNorm, Values, RowRun, HasForce;
    error, s := None, s0.(forceRows := s0.forceRows + 1);
    if Above(limits.rows, s.forceRows) {
      TooManyRowsIsReal(lines, i, requireTerminated, limits, p, s0);
      error := Some(TooManyRows);
      return;
    }
    if Readable(lines[i]) {
      if Norm(lines[i]) > s.curMax {
        s := s.(curMax := Norm(lines[i]));
      }
      s := s.(found := true);
    }
    ReadRow(lines, i, requireTerminated, limits, p, s0);
  }

  /** One turn of the loop over lines. */
  method ReadLine(lines: seq<Line>, i: nat, limits: Limits, requireTerminated: bool, ghost p0: Place, s0: State)
    returns (error: Option<Error>, ghost p: Place, s: State)
    requires Reading(lines, i, requireTerminated, limits, p0, s0) && i < |lines|
    ensures error.Some? ==> Justified(lines, limits, requireTerminated, error.value) && error.value != InvalidLimit
    ensures error.None? ==> Reading(lines, i + 1, requireTerminated, limits, p, s)
  {
    hide Split, MaxNorm, Values, RowRun, HasForce, Reading;
    var line := lines[i];
    error, p, s := None, p0, s0;
    if Above(limits.bytes, line.bytes) {
      error := Some(LineTooLong);
      return;
    }
    if line.header {
      if s.inBlock {
        error, p, s := Commit(lines, i, limits, requireTerminated, p, s);
        if error.Some? { return; }
      }
      NextLine(lines, i, requireTerminated, limits, p, s);
      p := p.(h := i);
      s := State(s.fmax, true, false, 0.0, true, 0);
      return;
    }
    if s.inBlock && s.pending {
      EnterBody(lines, i, requireTerminated, limits, p, s);
      s := s.(pending := false);
      p := p.(start := if IsSeparator(line) then i + 1 else i);
      if line.fields == [Dashes] {
        return;
      }
    }
    if s.inBlock && |line.fields| == 6 {
      error, s := CountRow(lines, i, limits, requireTerminated, p, s);
      return;
    }
    if s.inBlock {
      error, p, s := Commit(lines, i, limits, requireTerminated, p, s);
      if error.Some? { return; }
    }
    NextLine(lines, i, requireTerminated, limits, p, s);
  }

  lemma StartsReading(lines: seq<Line>, requireTerminated: bool, limits: Limits)
    ensures Reading(lines, 0, requireTerminated, limits, Place([], 0, 0), State([], false, false, 0.0, false, 0))
  {
    hide Split;
    assert lines[0..] == lines;
  }

  lemma JustifiedIsNotAllowed(lines: seq<Line>, limits: Limits, requireTerminated: bool, error: Error)
    requires Justified(lines, limits, requireTerminated, error) && error != InvalidLimit
    ensures !Allowed(lines, limits, requireTerminated)
  {
    hide Split, Values;
  }

  /** The limit on blocks as the reader finds it, after all lines. */
  lemma KeptLimit(lines: seq<Line>, requireTerminated: bool, limits: Limits, p: Place, s: State)
    requires Reading(lines, |lines|, requireTerminated, limits, p, s)
    ensures !Above(limits.blocks, |s.fmax|)
  {
    hide Split, Values, MaxNorm, HasForce, OpenBlock;
  }

  /** `parse_outcar_fmax_lines` */
  method ParseLines(lines: seq<Line>, limits: Limits, requireTerminated: bool) returns (r: Parse)
    ensures r.Rejected? ==> Justified(lines, limits, requireTerminated, r.error)
    ensures r.Parsed? <==>
              && ValidLimit(limits.blocks) && ValidLimit(limits.rows) && ValidLimit(limits.bytes)
              && Allowed(lines, limits, requireTerminated)
    ensures r.Parsed? ==> r.values == Values(Split(lines), requireTerminated)
    ensures r.Parsed? ==> (r.trailingComplete <==> forall b :: b in Split(lines) ==> b.closed)
  {
    if !ValidLimit(limits.blocks) || !ValidLimit(limits.rows) || !ValidLimit(limits.bytes) {
      return Rejected(InvalidLimit);
    }
    hide Split, MaxNorm, Values, RowRun, HasForce, Reading;
    var s := State([], false, false, 0.0, false, 0);
    ghost var p := Place([], 0, 0);
    var i := 0;
    StartsReading(lines, requireTerminated, limits);
    while i < |lines|
      invariant i <= |lines|
      invariant Reading(lines, i, requireTerminated, limits, p, s)
    {
      var error;
      error, p, s := ReadLine(lines, i, limits, requireTerminated, p, s);
      if error.Some? {
        JustifiedIsNotAllowed(lines, limits, requireTerminated, error.value);
        return Rejected(error.value);
      }
      i := i + 1;
    }
    FinishText(lines, requireTerminated, limits, p, s);
    KeptLimit(lines, requireTerminated, limits, p, s);
    if s.inBlock && s.found && !requireTerminated {
      if limits.blocks.Some? && |s.fmax| >= limits.blocks.value {
        return Rejected(TooManyBlocks);
      }
      s := s.(fmax := s.fmax + [s.curMax]);
    }
    r := Parsed(s.fmax, !s.inBlock);
  }

  // ---- printing and reading back ------------------------------------------------

  const HEADER := Line(60, true, [Word, Word, Word])
  const RULE := Line(80, false, [Dashes])

  /** Blocks as VASP prints them: header, rule, rows, rule. */
  function Print(blocks: seq<seq<Line>>): seq<Line> {
    if blocks == [] then [] else [HEADER, RULE] + blocks[0] + [RULE] + Print(blocks[1..])
  }

  ghost predicate AllRows(rows: seq<Line>) {
    forall i :: 0 <= i < |rows| ==> IsRow(rows[i])
  }

  ghost predicate Printable(blocks: seq<seq<Line>>) {
    forall b :: 0 <= b < |blocks| ==> AllRows(blocks[b])
  }

  lemma SplitOnePrinted(rows: seq<Line>, rest: seq<Line>)
    requires AllRows(rows)
    ensures Split([HEADER, RULE] + rows + [RULE] + rest) == [Block(rows, true)] + Split(rest)
  {
    hide Split;
    var text := [HEADER, RULE] + rows + [RULE] + rest;
    var end := 2 + |rows|;
    assert text[..end] == [HEADER, RULE] + rows;
    assert forall k :: 2 <= k < end ==> text[k] == rows[k - 2];
    assert text[2..end] == rows;
    assert text[end] == RULE;
    assert text[0..] == text;
    BlockEnds(text, 0, 2, end);
    SkipLine(text, end);
    assert text[end + 1..] == rest;
  }

  lemma {:induction false} SplitPrint(blocks: seq<seq<Line>>)
    requires Printable(blocks)
    ensures Split(Print(blocks)) == Closed(blocks)
  {
    if blocks != [] {
      hide Split;
      SplitPrint(blocks[1..]);
      SplitOnePrinted(blocks[0], Print(blocks[1..]));
      assert Closed(blocks) == [Block(blocks[0], true)] + Closed(blocks[1..]);
    }
  }

  /** Reading printed blocks gives back the maximum of each block that has a readable row. */
  lemma {:induction false} ReadPrinted(blocks: seq<seq<Line>>, requireTerminated: bool)
    requires Printable(blocks)
    requires forall b :: 0 <= b < |blocks| ==> HasForce(blocks[b])
    ensures Values(Split(Print(blocks)), requireTerminated)
         == seq(|blocks|, k requires 0 <= k < |blocks| => MaxNorm(blocks[k]))
  {
    SplitPrint(blocks);
    AllReported(blocks, requireTerminated, |blocks|);
    assert Closed(blocks)[..|blocks|] == Closed(blocks);
  }

  function Closed(blocks: seq<seq<Line>>): seq<Block> {
    seq(|blocks|, k requires 0 <= k < |blocks| => Block(blocks[k], true))
  }

  lemma {:induction false} AllReported(blocks: seq<seq<Line>>, requireTerminated: bool, n: nat)
    requires n <= |blocks|
    requires forall b :: 0 <= b < |blocks| ==> HasForce(blocks[b])
    ensures Values(Closed(blocks)[..n], requireTerminated) == seq(n, k requires 0 <= k < n => MaxNorm(blocks[k]))
  {
    if n > 0 {
      AllReported(blocks, requireTerminated, n - 1);
      assert Closed(blocks)[..n] == Closed(blocks)[..n - 1] + [Block(blocks[n - 1], true)];
      ValuesAppend(Closed(blocks)[..n - 1], Block(blocks[n - 1], true), requireTerminated);
    }
  }
}
