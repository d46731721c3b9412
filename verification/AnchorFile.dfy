/** The selection log as bytes: torn tails, reading, appending. */
module AnchorFile {
  import opened SelectionLog

  newtype Byte = b: int | 0 <= b < 256

  const LF: Byte := 10
  const CR: Byte := 13
  const MaxBytes: nat := 32 * 1024 * 1024

  /** Canonical JSON of a record and the decoder of one line. */
  datatype Codec = Codec(enc: Record -> seq<Byte>, dec: seq<Byte> -> Option<Record>) {
    /** Control characters are escaped (section 7 of RFC 8259), so a record is one line. */
    ghost predicate Sound() {
      forall r: Record :: dec(enc(r)) == Some(r) && LF !in enc(r) && CR !in enc(r)
    }

    function Line(r: Record): seq<Byte> {
      enc(r) + [LF]
    }

    function Blob(rs: seq<Record>): seq<Byte> {
      if rs == [] then [] else Line(rs[0]) + Blob(rs[1..])
    }

    /** The lines of a payload, decoded. */
    function Records(payload: seq<Byte>): seq<Option<Record>> {
      var ls := Lines(payload);
      seq(|ls|, i requires 0 <= i < |ls| => dec(ls[i]))
    }
  }

  /** The first line break, or the length. */
  function Break(p: seq<Byte>): (k: nat)
    ensures k <= |p| && (forall i :: 0 <= i < k ==> p[i] != LF && p[i] != CR)
    ensures k < |p| ==> p[k] == LF || p[k] == CR
  {
    if p == [] || p[0] == LF || p[0] == CR then 0 else 1 + Break(p[1..])
  }

  /** Python's `bytes.splitlines`: breaks at LF, CR and CR LF. */
  function Lines(p: seq<Byte>): seq<seq<Byte>>
    decreases |p|
  {
    if p == [] then []
    else
      var k := Break(p);
      if k == |p| then [p]
      else if p[k] == CR && k + 1 < |p| && p[k + 1] == LF then [p[..k]] + Lines(p[k + 2..])
      else [p[..k]] + Lines(p[k + 1..])
  }

  /** The length up to and with the last line feed: `rfind` plus one. */
  function WholeLength(p: seq<Byte>): (n: nat)
    ensures n <= |p| && (n > 0 ==> p[n - 1] == LF) && (forall i :: n <= i < |p| ==> p[i] != LF)
  {
    if p == [] then 0 else if p[|p| - 1] == LF then |p| else WholeLength(p[..|p| - 1])
  }

  function Whole(p: seq<Byte>): seq<Byte> {
    p[..WholeLength(p)]
  }

  // ---- the file ---------------------------------------------------------------------

  /** `_SelectionAnchorFile`; a missing file reads as an empty one. */
  class SelectionAnchorFile {
    const codec: Codec
    const input: string
    var bytes: seq<Byte>

    constructor (codec: Codec, input: string)
      ensures this.codec == codec && this.input == input && bytes == []
    {
      this.codec, this.input, bytes := codec, input, [];
    }

    /** The validator over bytes: an incomplete last line is refused before any record is looked at. */
    method Validated(payload: seq<Byte>) returns (r: Result<State>)
      ensures r.Ok? <==> Whole(payload) == payload && Accepted(codec.Records(payload), input)
      ensures r.Ok? ==> r.value == StateOf(Values(codec.Records(payload)))
    {
      if payload != [] && payload[|payload| - 1] != LF { return Err(IncompleteTail); }
      r := ValidateLog(codec.Records(payload), input);
    }

    /** Validate what is whole; cut an incomplete tail off only if the rest is accepted. */
    method Read() returns (r: Result<State>)
      modifies this
      ensures |old(bytes)| > MaxBytes ==> r == Err(TooLarge) && bytes == old(bytes)
      ensures |old(bytes)| <= MaxBytes ==>
                var whole := Whole(old(bytes));
                && (r.Ok? <==> Accepted(codec.Records(whole), input))
                && (r.Ok? ==> r.value == StateOf(Values(codec.Records(whole))) && bytes == whole)
                && (r.Err? ==> bytes == old(bytes))
    {
      if |bytes| > MaxBytes { return Err(TooLarge); }
      WholeTwice(bytes);
      if bytes != [] && bytes[|bytes| - 1] != LF {
        var complete := Whole(bytes);
        r := Validated(complete);
        if r.Ok? { bytes := complete; }
      } else {
        r := Validated(bytes);
      }
    }

    /** The write loop. `written` is what the successive `os.write` calls achieve before the process
        stops or a call fails; whatever was written stays. */
    method Append(record: Record, written: seq<nat>) returns (ok: bool)
      modifies this
      ensures |old(bytes)| + |codec.Line(record)| > MaxBytes ==> !ok && bytes == old(bytes)
      ensures ok ==> bytes == old(bytes) + codec.Line(record)
      ensures !ok ==> exists k :: 0 <= k < |codec.Line(record)| && bytes == old(bytes) + codec.Line(record)[..k]
      ensures (&& |old(bytes)| + |codec.Line(record)| <= MaxBytes && |written| >= |codec.Line(record)|
               && forall i :: 0 <= i < |written| ==> written[i] > 0) ==> ok
    {
      var payload := codec.Line(record);
      assert bytes == bytes + payload[..0];
      if |bytes| + |payload| > MaxBytes { return false; }
      var offset, call := 0, 0;
      while offset < |payload|
        invariant 0 <= offset <= |payload| && call <= |written|
        invariant bytes == old(bytes) + payload[..offset]
        invariant (forall i :: 0 <= i < |written| ==> written[i] > 0) ==> offset >= call
        decreases |written| - call
      {
        if call == |written| || written[call] == 0 { return false; }
        var n := if offset + written[call] <= |payload| then written[call] else |payload| - offset;
        assert payload[..offset] + payload[offset..offset + n] == payload[..offset + n];
        bytes := bytes + payload[offset..offset + n];
        offset, call := offset + n, call + 1;
      }
      ok := true;
    }
  }

  lemma WholeTwice(p: seq<Byte>)
    ensures Whole(Whole(p)) == Whole(p)
    ensures (p == [] || p[|p| - 1] == LF) <==> Whole(p) == p
  {
  }

  // ---- printed logs read back ---------------------------------------------------------

  lemma BreakAtEnd(line: seq<Byte>, rest: seq<Byte>)
    requires LF !in line && CR !in line
    ensures Break(line + [LF] + rest) == |line|
  {
    var p := line + [LF] + rest;
    assert p[|line|] == LF;
    assert forall i :: 0 <= i < |line| ==> p[i] == line[i] && line[i] in line;
  }

  lemma FirstLine(line: seq<Byte>, rest: seq<Byte>)
    requires LF !in line && CR !in line
    ensures Lines(line + [LF] + rest) == [line] + Lines(rest)
  {
    var p := line + [LF] + rest;
    BreakAtEnd(line, rest);
    assert p[|line|] == LF && p[..|line|] == line && p[|line| + 1..] == rest;
  }

  lemma FirstRecord(c: Codec, r: Record, rest: seq<Byte>)
    requires c.Sound()
    ensures c.Records(c.Line(r) + rest) == [Some(r)] + c.Records(rest)
  {
    FirstLine(c.enc(r), rest);
    assert c.Line(r) + rest == c.enc(r) + [LF] + rest;
    hide Lines;
  }

  lemma ValuesOfFirst(r: Record, tail: seq<Option<Record>>)
    requires Decoded(tail)
    ensures Decoded([Some(r)] + tail) && Values([Some(r)] + tail) == [r] + Values(tail)
  {
    var all := [Some(r)] + tail;
    assert forall i :: 0 < i < |all| ==> all[i] == tail[i - 1];
  }

  /** Reading a printed log gives its records back. */
  lemma {:induction false} PrintedLogReads(c: Codec, rs: seq<Record>)
    requires c.Sound()
    ensures Decoded(c.Records(c.Blob(rs))) && Values(c.Records(c.Blob(rs))) == rs
  {
    if rs != [] {
      PrintedLogReads(c, rs[1..]);
      FirstRecord(c, rs[0], c.Blob(rs[1..]));
      ValuesOfFirst(rs[0], c.Records(c.Blob(rs[1..])));
      hide Decoded, Values;
      assert rs == [rs[0]] + rs[1..];
    }
  }

  lemma {:induction false} PrintedLogIsWhole(c: Codec, rs: seq<Record>)
    ensures Whole(c.Blob(rs)) == c.Blob(rs)
  {
    if rs != [] {
      PrintedLogIsWhole(c, rs[1..]);
      WholeTwice(c.Blob(rs[1..]));
      WholeTwice(c.Blob(rs));
    }
  }

  lemma {:induction false} BlobExtends(c: Codec, rs: seq<Record>, r: Record)
    ensures c.Blob(rs + [r]) == c.Blob(rs) + c.Line(r)
  {
    if rs != [] {
      BlobExtends(c, rs[1..], r);
      assert (rs + [r])[1..] == rs[1..] + [r];
    }
  }

  // ---- torn tails ------------------------------------------------------------------------

  /** A part of one line, short of its line feed. */
  lemma PartOfLine(c: Codec, r: Record, part: seq<Byte>)
    requires c.Sound() && part <= c.Line(r) && |part| < |c.Line(r)|
    ensures LF !in part
  {
    assert forall i :: 0 <= i < |part| ==> part[i] == c.enc(r)[i];
  }

  lemma WholeOfTorn(whole: seq<Byte>, part: seq<Byte>)
    requires Whole(whole) == whole && LF !in part
    ensures Whole(whole + part) == whole
  {
    var p := whole + part;
    var n := WholeLength(p);
    assert forall i :: |whole| <= i < |p| ==> p[i] == part[i - |whole|];
    assert whole != [] ==> p[|whole| - 1] == LF;
  }

  /** The number of whole records in the first bytes of a printed log. */
  lemma {:induction false} WholeRecords(c: Codec, rs: seq<Record>, p: seq<Byte>) returns (n: nat)
    requires c.Sound() && p <= c.Blob(rs)
    ensures n <= |rs| && c.Blob(rs[..n]) <= p
    ensures n < |rs| ==> |p| < |c.Blob(rs[..n + 1])|
    ensures Whole(p) == c.Blob(rs[..n])
  {
    if rs == [] {
      n := 0;
    } else if |p| < |c.Line(rs[0])| {
      n := 0;
      PartOfFirst(c, rs, p);
    } else {
      var line, rest := c.Line(rs[0]), rs[1..];
      var tail := p[|line|..];
      LineOff(line, c.Blob(rest), p);
      var m := WholeRecords(c, rest, tail);
      n := m + 1;
      BlobFirst(c, rs, n);
      if n < |rs| { BlobFirst(c, rs, n + 1); }
      hide Codec.Blob, Whole, WholeLength;
      WholeAfterLine(c, rs, n, tail);
      assert line + tail == p;
    }
  }

  lemma LineOff(line: seq<Byte>, rest: seq<Byte>, p: seq<Byte>)
    requires p <= line + rest && |p| >= |line|
    ensures line + p[|line|..] == p && p[|line|..] <= rest
  {
    assert p == (line + rest)[..|p|];
  }

  lemma BlobFirst(c: Codec, rs: seq<Record>, n: nat)
    requires 0 < n <= |rs|
    ensures c.Blob(rs[..n]) == c.Line(rs[0]) + c.Blob(rs[1..][..n - 1])
  {
    assert rs[..n][1..] == rs[1..][..n - 1];
  }

  lemma PartOfFirst(c: Codec, rs: seq<Record>, p: seq<Byte>)
    requires c.Sound() && rs != [] && p <= c.Blob(rs) && |p| < |c.Line(rs[0])|
    ensures Whole(p) == c.Blob(rs[..0]) && |p| < |c.Blob(rs[..1])|
  {
    var line := c.Line(rs[0]);
    BlobFirst(c, rs, 1);
    assert p == (line + c.Blob(rs[1..]))[..|p|] == line[..|p|];
    PartOfLine(c, rs[0], p);
    WholeOfTorn([], p);
    assert [] + p == p;
  }

  lemma WholeAfterLine(c: Codec, rs: seq<Record>, n: nat, tail: seq<Byte>)
    requires 0 < n <= |rs| && Whole(tail) == c.Blob(rs[1..][..n - 1])
    ensures Whole(c.Line(rs[0]) + tail) == c.Blob(rs[..n])
  {
    var whole := Whole(tail);
    var part := tail[|whole|..];
    WholeTail(tail, whole, part);
    BlobFirst(c, rs, n);
    PrintedLogIsWhole(c, rs[..n]);
    WholeOfTorn(c.Blob(rs[..n]), part);
    hide Codec.Blob, Whole, WholeLength;
    assert c.Line(rs[0]) + tail == c.Blob(rs[..n]) + part;
  }

  lemma WholeTail(p: seq<Byte>, whole: seq<Byte>, part: seq<Byte>)
    requires p == whole + part && Whole(p) == whole
    ensures LF !in part
  {
    assert forall i :: 0 <= i < |part| ==> part[i] == p[|whole| + i];
  }

  /** Whatever prefix of an accepted log a crash leaves: reading it gives the state of its longest
      whole-record prefix, and exactly those bytes remain. */
  lemma TornTail(c: Codec, rs: seq<Record>, p: seq<Byte>, input: string) returns (n: nat)
    requires c.Sound() && Chained(rs, input) && |rs| <= MaxRecords && p <= c.Blob(rs)
    ensures n <= |rs| && c.Blob(rs[..n]) <= p && (n < |rs| ==> |p| < |c.Blob(rs[..n + 1])|)
    ensures Whole(p) == c.Blob(rs[..n])
    ensures Accepted(c.Records(Whole(p)), input) && Values(c.Records(Whole(p))) == rs[..n]
  {
    n := WholeRecords(c, rs, p);
    PrintedLogReads(c, rs[..n]);
    ChainedPrefix(rs, n, input);
  }

  /** What the program appends next to a state it read: the commit of an open prepare, or a prepare. */
  function NextRecord(s: State, sel: Selection, res: Reservation): Option<Record> {
    if s.pending.Some? then CommitRecord(s, s.pending.value) else PrepareRecord(s, sel, res)
  }

  /** After a torn tail was cut off, the next append yields a log the validator accepts. */
  lemma AppendAfterTornTail(c: Codec, rs: seq<Record>, p: seq<Byte>, input: string, sel: Selection, res: Reservation)
    returns (n: nat)
    requires c.Sound() && Chained(rs, input) && |rs| <= MaxRecords && p <= c.Blob(rs)
    ensures n <= |rs| && Whole(p) == c.Blob(rs[..n])
    ensures var s := StateOf(rs[..n]); var next := NextRecord(s, sel, res);
            && (next.None? <==> n == MaxRecords)
            && (next.Some? && (s.pending.None? ==> sel.input == input && sel.revision == RevisionOf(s.committed) + 1) ==>
                  var payload := Whole(p) + c.Line(next.value);
                  && Whole(payload) == payload && Accepted(c.Records(payload), input)
                  && Values(c.Records(payload)) == rs[..n] + [next.value])
  {
    n := TornTail(c, rs, p, input);
    var whole := rs[..n];
    ChainedPrefix(rs, n, input);
    var s := StateOf(whole);
    var next := NextRecord(s, sel, res);
    if s.pending.Some? {
      CommitKeepsLog(whole, input);
    } else if n < MaxRecords {
      PrepareKeepsLog(whole, sel, res, input);
    }
    if next.Some? {
      BlobExtends(c, whole, next.value);
      PrintedLogReads(c, whole + [next.value]);
      PrintedLogIsWhole(c, whole + [next.value]);
    }
  }

  // ---- records and a flag instead of bytes -----------------------------------------------

  /** The bytes hold these whole records, followed by a part of one more if torn. */
  predicate Holds(c: Codec, p: seq<Byte>, rs: seq<Record>, torn: bool) {
    Whole(p) == c.Blob(rs) && (torn <==> Whole(p) != p)
  }

  /** Reading the bytes is reading the records, and cutting the tail clears the flag. */
  lemma ReadingRecords(c: Codec, p: seq<Byte>, rs: seq<Record>, torn: bool, input: string)
    requires c.Sound() && Holds(c, p, rs, torn)
    ensures Decoded(c.Records(Whole(p))) && Values(c.Records(Whole(p))) == rs
    ensures Accepted(c.Records(Whole(p)), input) <==> |rs| <= MaxRecords && Chained(rs, input)
    ensures Holds(c, Whole(p), rs, false)
  {
    PrintedLogReads(c, rs);
    WholeTwice(p);
  }

  /** An append that wrote k bytes added the record if it wrote all, and otherwise only tore the tail. */
  lemma AppendingRecord(c: Codec, p: seq<Byte>, rs: seq<Record>, r: Record, k: nat)
    requires c.Sound() && Holds(c, p, rs, false) && k <= |c.Line(r)|
    ensures var line := c.Line(r);
            if k == |line| then Holds(c, p + line[..k], rs + [r], false) else Holds(c, p + line[..k], rs, k > 0)
  {
    var line := c.Line(r);
    if k == |line| {
      BlobExtends(c, rs, r);
      PrintedLogIsWhole(c, rs + [r]);
      assert line[..k] == line;
    } else {
      PartOfLine(c, r, line[..k]);
      WholeOfTorn(p, line[..k]);
      assert k == 0 ==> p + line[..k] == p;
      assert k > 0 ==> |p + line[..k]| > |p|;
    }
  }
}
