/** What a run leaves of the output of its command (internal/runner/runner.go): both streams go, in
    whole lines, to one capture of bounded size and to the output file. */
module Outputs {
  import opened Bytes
  import Rotation
  import Tails

  const MAX_CAPTURED_OUTPUT: nat := 65536
  const MAX_LOG_LINE: nat := 8192
  const TAIL_LINES: nat := 20
  const TAIL_BYTES: nat := 4096

  function First(n: nat, s: Text): Text {
    if |s| <= n then s else s[..n]
  }

  // capBuffer

  datatype Capture = Capture(buf: Text, truncated: bool)

  function Captured(limit: nat, c: Capture, p: Text): Capture {
    if |c.buf| >= limit then c.(truncated := true)
    else if |p| > limit - |c.buf| then Capture(c.buf + p[..limit - |c.buf|], true)
    else c.(buf := c.buf + p)
  }

  function AllCaptured(limit: nat, chunks: seq<Text>): Capture {
    if chunks == [] then Capture([], false)
    else Captured(limit, AllCaptured(limit, chunks[..|chunks| - 1]), chunks[|chunks| - 1])
  }

  /** An empty write to a full buffer. */
  ghost predicate WrittenWhenFull(limit: nat, chunks: seq<Text>) {
    exists i | 0 <= i < |chunks| :: chunks[i] == [] && |Concat(chunks[..i])| >= limit
  }

  /** The capture is the first limit bytes of what was written. It says truncated exactly when there was
      more, or an empty write when it was full. */
  lemma {:induction false} CaptureMeaning(limit: nat, chunks: seq<Text>)
    ensures AllCaptured(limit, chunks).buf == First(limit, Concat(chunks))
    ensures AllCaptured(limit, chunks).truncated <==> |Concat(chunks)| > limit || WrittenWhenFull(limit, chunks)
  {
    if chunks != [] {
      var init, p := chunks[..|chunks| - 1], chunks[|chunks| - 1];
      CaptureMeaning(limit, init);
      assert Concat(chunks) == Concat(init) + p;
      assert WrittenWhenFull(limit, chunks) <==> WrittenWhenFull(limit, init) || (p == [] && |Concat(init)| >= limit) by {
        assert forall i | 0 <= i < |init| :: chunks[..i] == init[..i];
        if p == [] && |Concat(init)| >= limit {
          assert chunks[|init|] == [] && chunks[..|init|] == init;
        }
        if i :| 0 <= i < |init| && init[i] == [] && |Concat(init[..i])| >= limit {
          assert chunks[i] == [] && chunks[..i] == init[..i];
        }
      }
    }
  }

  class CapBuffer {
    const limit: nat
    var buf: Text
    var truncated: bool
    ghost var chunks: seq<Text>

    ghost predicate Valid()
      reads this
    {
      Capture(buf, truncated) == AllCaptured(limit, chunks)
    }

    constructor (limit: nat)
      ensures Valid() && this.limit == limit && chunks == []
    {
      this.limit := limit;
      buf, truncated, chunks := [], false, [];
    }

    method Write(p: Text)
      requires Valid()
      modifies this
      ensures Valid() && chunks == old(chunks) + [p]
    {
      chunks := chunks + [p];
      assert chunks[..|chunks| - 1] == old(chunks);
      CaptureMeaning(limit, old(chunks));
      var room := limit - |buf|;
      if room <= 0 {
        truncated := true;
        return;
      }
      if |p| > room {
        buf := buf + p[..room];
        truncated := true;
      } else {
        buf := buf + p;
      }
    }
  }

  // lineWriter

  /** The end of the last line in s, or 0 when s has no newline. */
  function LinesEnd(s: Text): (i: nat)
    ensures i <= |s| && LF !in s[i..] && (i > 0 ==> s[i - 1] == LF)
  {
    if s == [] || s[|s| - 1] == LF then |s| else LinesEnd(s[..|s| - 1])
  }

  /** How much of the pending bytes is sent on at once. */
  function Sent(pending: Text): nat {
    if LinesEnd(pending) > 0 then LinesEnd(pending) else if |pending| > MAX_LOG_LINE then |pending| else 0
  }

  /** What a writer sends on. flushed: at the end of the stream. */
  datatype Chunk = Chunk(stderr: bool, bytes: Text, flushed: bool)

  /** Whole lines, or, if flushed or too long, a part of one without a newline. */
  predicate WellCut(c: Chunk) {
    c.bytes != [] &&
    if c.flushed then LF !in c.bytes
    else c.bytes[|c.bytes| - 1] == LF || (LF !in c.bytes && |c.bytes| > MAX_LOG_LINE)
  }

  datatype Op = Write(stderr: bool, p: Text) | Flush(stderr: bool)

  datatype Streams = Streams(out: Text, err: Text, chunks: seq<Chunk>)

  function Pending(s: Streams, stderr: bool): Text {
    if stderr then s.err else s.out
  }

  function Leave(s: Streams, stderr: bool, rest: Text): Streams {
    if stderr then s.(err := rest) else s.(out := rest)
  }

  function Written(s: Streams, stderr: bool, p: Text): Streams {
    var pending := Pending(s, stderr) + p;
    var n := Sent(pending);
    if n == 0 then Leave(s, stderr, pending)
    else Leave(s, stderr, pending[n..]).(chunks := s.chunks + [Chunk(stderr, pending[..n], false)])
  }

  function Flushed(s: Streams, stderr: bool): Streams {
    var pending := Pending(s, stderr);
    if pending == [] then s
    else Leave(s, stderr, []).(chunks := s.chunks + [Chunk(stderr, pending, true)])
  }

  function Apply(s: Streams, op: Op): Streams {
    match op
    case Write(stderr, p) => Written(s, stderr, p)
    case Flush(stderr) => Flushed(s, stderr)
  }

  function AllApplied(ops: seq<Op>): Streams {
    if ops == [] then Streams([], [], []) else Apply(AllApplied(ops[..|ops| - 1]), ops[|ops| - 1])
  }

  // What is kept of the streams

  /** What was written to a stream. */
  function Input(ops: seq<Op>, stderr: bool): Text {
    if ops == [] then []
    else
      var op, before := ops[|ops| - 1], Input(ops[..|ops| - 1], stderr);
      if op.Write? && op.stderr == stderr then before + op.p else before
  }

  /** The bytes of the chunks of a stream, in order. */
  function BytesOf(chunks: seq<Chunk>, stderr: bool): Text {
    if chunks == [] then []
    else
      var c, before := chunks[|chunks| - 1], BytesOf(chunks[..|chunks| - 1], stderr);
      if c.stderr == stderr then before + c.bytes else before
  }

  function Texts(chunks: seq<Chunk>): seq<Text> {
    seq(|chunks|, i requires 0 <= i < |chunks| => chunks[i].bytes)
  }

  ghost predicate Kept(s: Streams, ops: seq<Op>, stderr: bool) {
    var pending := Pending(s, stderr);
    BytesOf(s.chunks, stderr) + pending == Input(ops, stderr) && LF !in pending
  }

  lemma AddedChunk(chunks: seq<Chunk>, c: Chunk, stderr: bool)
    ensures BytesOf(chunks + [c], stderr) == if c.stderr == stderr then BytesOf(chunks, stderr) + c.bytes else BytesOf(chunks, stderr)
    ensures Texts(chunks + [c]) == Texts(chunks) + [c.bytes]
  {
    assert (chunks + [c])[..|chunks|] == chunks;
  }

  lemma InputOfMore(ops: seq<Op>, op: Op, stderr: bool)
    ensures Input(ops + [op], stderr)
         == if op.Write? && op.stderr == stderr then Input(ops, stderr) + op.p else Input(ops, stderr)
  {
    assert (ops + [op])[..|ops|] == ops;
  }

  lemma Regroup(x: Text, was: Text, p: Text, n: nat)
    requires n <= |was + p|
    ensures (x + (was + p)[..n]) + (was + p)[n..] == (x + was) + p
  {
  }

  lemma SentKeepsOut(was: Text, p: Text)
    ensures LF !in (was + p)[Sent(was + p)..]
  {
  }

  lemma WriteKept(s: Streams, ops: seq<Op>, p: Text, stderr: bool)
    requires Kept(s, ops, stderr)
    ensures Kept(Written(s, stderr, p), ops + [Write(stderr, p)], stderr)
  {
    InputOfMore(ops, Write(stderr, p), stderr);
    var was := Pending(s, stderr);
    var n := Sent(was + p);
    SentKeepsOut(was, p);
    Regroup(BytesOf(s.chunks, stderr), was, p, n);
    AddedChunk(s.chunks, Chunk(stderr, (was + p)[..n], false), stderr);
    var after := Written(s, stderr, p);
    assert n == 0 ==> (was + p)[n..] == was + p && BytesOf(s.chunks, stderr) + (was + p)[..0] == BytesOf(s.chunks, stderr);
    assert Pending(after, stderr) == (was + p)[n..];
  }

  lemma FlushKept(s: Streams, ops: seq<Op>, stderr: bool)
    requires Kept(s, ops, stderr)
    ensures Kept(Flushed(s, stderr), ops + [Flush(stderr)], stderr)
  {
    InputOfMore(ops, Flush(stderr), stderr);
    AddedChunk(s.chunks, Chunk(stderr, Pending(s, stderr), true), stderr);
  }

  lemma OtherKept(s: Streams, ops: seq<Op>, op: Op, stderr: bool)
    requires Kept(s, ops, stderr) && op.stderr != stderr
    ensures Kept(Apply(s, op), ops + [op], stderr)
  {
    InputOfMore(ops, op, stderr);
    var pending := Pending(s, op.stderr) + if op.Write? then op.p else [];
    AddedChunk(s.chunks, Chunk(op.stderr, pending[..Sent(pending)], false), stderr);
    AddedChunk(s.chunks, Chunk(op.stderr, pending, true), stderr);
    assert pending == Pending(s, op.stderr) || op.Write?;
  }

  lemma OpKept(s: Streams, ops: seq<Op>, op: Op, stderr: bool)
    requires Kept(s, ops, stderr)
    ensures Kept(Apply(s, op), ops + [op], stderr)
  {
    if op.stderr != stderr {
      OtherKept(s, ops, op, stderr);
    } else if op.Write? {
      WriteKept(s, ops, op.p, stderr);
    } else {
      FlushKept(s, ops, stderr);
    }
  }

  /** Of what is pending and written, all up to the last newline is sent at once, as one chunk; without a newline,
      all of it if it is longer than 8192 bytes, and otherwise nothing. */
  lemma WriteSends(s: Streams, stderr: bool, p: Text)
    ensures var all, after := Pending(s, stderr) + p, Written(s, stderr, p);
            && Pending(after, !stderr) == Pending(s, !stderr)
            && if LF in all then
                 exists i :: 0 <= i < |all| && all[i] == LF && LF !in all[i + 1..] && Pending(after, stderr) == all[i + 1..]
                             && after.chunks == s.chunks + [Chunk(stderr, all[..i + 1], false)]
               else if |all| > 8192 then Pending(after, stderr) == [] && after.chunks == s.chunks + [Chunk(stderr, all, false)]
               else Pending(after, stderr) == all && after.chunks == s.chunks
  {
    var all := Pending(s, stderr) + p;
    var n := LinesEnd(all);
    assert n == 0 ==> all[n..] == all;
    assert n > 0 ==> all[n - 1] in all;
    if LF in all {
      assert all[n - 1] == LF && all[(n - 1) + 1..] == all[n..] && all[..(n - 1) + 1] == all[..n];
    } else {
      assert all[..|all|] == all && all[|all|..] == [];
    }
  }

  /** A flush sends what is pending as one chunk. */
  lemma FlushSends(s: Streams, stderr: bool)
    ensures var all, after := Pending(s, stderr), Flushed(s, stderr);
            && Pending(after, stderr) == [] && Pending(after, !stderr) == Pending(s, !stderr)
            && after.chunks == if all == [] then s.chunks else s.chunks + [Chunk(stderr, all, true)]
  {
  }

  // The output file

  /** The files after a write with all pending, and after a flush. */
  function FileAfter(gens: Rotation.Generations, all: Text, max: nat, backups: nat): Rotation.Generations {
    if Sent(all) == 0 then gens else Rotation.Wrote(gens, all[..Sent(all)], max, backups)
  }

  function FileEnded(gens: Rotation.Generations, all: Text, max: nat, backups: nat): Rotation.Generations {
    if all == [] then gens else Rotation.Wrote(gens, all + [LF], max, backups)
  }

  /** What the file gets for a chunk: a line that its stream did not end is ended. */
  function FileText(c: Chunk): Text {
    if c.flushed then c.bytes + [LF] else c.bytes
  }

  /** The files after the chunks, one write for each. */
  function Filed(begun: Rotation.Generations, chunks: seq<Chunk>, max: nat, backups: nat): Rotation.Generations {
    if chunks == [] then begun
    else Rotation.Wrote(Filed(begun, chunks[..|chunks| - 1], max, backups), FileText(chunks[|chunks| - 1]), max, backups)
  }

  lemma FiledMore(begun: Rotation.Generations, chunks: seq<Chunk>, c: Chunk, max: nat, backups: nat)
    ensures Filed(begun, chunks + [c], max, backups) == Rotation.Wrote(Filed(begun, chunks, max, backups), FileText(c), max, backups)
  {
    assert (chunks + [c])[..|chunks|] == chunks;
  }

  /** The bytes of the file that come from a stream. */
  function FiledBytes(chunks: seq<Chunk>, stderr: bool): Text {
    if chunks == [] then []
    else
      var c, before := chunks[|chunks| - 1], FiledBytes(chunks[..|chunks| - 1], stderr);
      if c.stderr == stderr then before + FileText(c) else before
  }

  lemma FiledBytesMore(chunks: seq<Chunk>, c: Chunk, stderr: bool)
    ensures FiledBytes(chunks + [c], stderr)
         == if c.stderr == stderr then FiledBytes(chunks, stderr) + FileText(c) else FiledBytes(chunks, stderr)
  {
    assert (chunks + [c])[..|chunks|] == chunks;
  }

  /** Until the streams end, the file has what was sent on. */
  lemma {:induction false} FiledWhileWriting(ops: seq<Op>, stderr: bool)
    requires forall op | op in ops :: op.Write?
    ensures FiledBytes(AllApplied(ops).chunks, stderr) == BytesOf(AllApplied(ops).chunks, stderr)
  {
    if ops != [] {
      var init, op := ops[..|ops| - 1], ops[|ops| - 1];
      assert op in ops && forall x | x in init :: x in ops;
      FiledWhileWriting(init, stderr);
      var s := AllApplied(init);
      var all := Pending(s, op.stderr) + op.p;
      AddedChunk(s.chunks, Chunk(op.stderr, all[..Sent(all)], false), stderr);
      FiledBytesMore(s.chunks, Chunk(op.stderr, all[..Sent(all)], false), stderr);
    }
  }

  lemma FlushFiled(s: Streams, stderr: bool, of: bool)
    ensures var after, all := Flushed(s, stderr), Pending(s, stderr);
            FiledBytes(after.chunks, of)
            == FiledBytes(s.chunks, of) + if stderr == of && all != [] then all + [LF] else []
  {
    FiledBytesMore(s.chunks, Chunk(stderr, Pending(s, stderr), true), of);
  }

  /** The output file has all bytes of each stream, in order, and a newline more if the end of the stream was
      still pending when it ended. */
  lemma FileOfRun(ops: seq<Op>, stderr: bool)
    requires forall op | op in ops :: op.Write?
    ensures FiledBytes(AllApplied(Ended(ops)).chunks, stderr)
         == Input(ops, stderr) + if Pending(AllApplied(ops), stderr) == [] then [] else [LF]
  {
    var s := AllApplied(ops);
    StreamsAreKept(ops);
    FiledWhileWriting(ops, stderr);
    EndedInput(ops, stderr);
    FlushFiled(s, false, stderr);
    FlushFiled(Flushed(s, false), true, stderr);
    EndOfFile(BytesOf(s.chunks, stderr), Pending(s, stderr), Input(ops, stderr));
  }

  lemma EndOfFile(sent: Text, pending: Text, input: Text)
    requires sent + pending == input
    ensures sent + (if pending != [] then pending + [LF] else []) == input + if pending == [] then [] else [LF]
  {
  }

  ghost predicate AllWellCut(chunks: seq<Chunk>) {
    forall c | c in chunks :: WellCut(c)
  }

  lemma WellCutAdded(s: Streams, op: Op)
    requires AllWellCut(s.chunks) && LF !in Pending(s, op.stderr)
    ensures AllWellCut(Apply(s, op).chunks)
  {
    if op.Write? {
      var pending := Pending(s, op.stderr) + op.p;
      var n := Sent(pending);
      if LinesEnd(pending) > 0 {
        assert pending[..n][n - 1] == LF;
      } else {
        assert pending[0..] == pending && pending[..|pending|] == pending;
      }
    }
  }

  ghost predicate BothKept(s: Streams, ops: seq<Op>) {
    Kept(s, ops, false) && Kept(s, ops, true) && AllWellCut(s.chunks)
  }

  lemma OneMore(s: Streams, ops: seq<Op>, op: Op)
    requires BothKept(s, ops)
    ensures BothKept(Apply(s, op), ops + [op])
  {
    OpKept(s, ops, op, false);
    OpKept(s, ops, op, true);
    WellCutAdded(s, op);
  }

  /** However the writes and flushes of the two streams interleave, no byte of a stream is lost, repeated
      or moved, and what is sent on is cut at the ends of lines. */
  lemma {:induction false} StreamsAreKept(ops: seq<Op>)
    ensures BothKept(AllApplied(ops), ops)
  {
    if ops != [] {
      var init, op := ops[..|ops| - 1], ops[|ops| - 1];
      StreamsAreKept(init);
      OneMore(AllApplied(init), init, op);
      assert ops == init + [op];
    }
  }

  lemma {:induction false} TotalLength(chunks: seq<Chunk>)
    ensures |Concat(Texts(chunks))| == |BytesOf(chunks, false)| + |BytesOf(chunks, true)|
  {
    if chunks != [] {
      var init, c := chunks[..|chunks| - 1], chunks[|chunks| - 1];
      TotalLength(init);
      assert chunks == init + [c];
      AddedChunk(init, c, false);
      assert Texts(chunks)[..|chunks| - 1] == Texts(init);
    }
  }

  /** The two flushes at the end of a run. */
  function Ended(ops: seq<Op>): seq<Op> {
    ops + [Flush(false)] + [Flush(true)]
  }

  lemma EndedInput(ops: seq<Op>, stderr: bool)
    ensures Input(Ended(ops), stderr) == Input(ops, stderr)
    ensures AllApplied(Ended(ops)) == Flushed(Flushed(AllApplied(ops), false), true)
  {
    var a, b := ops + [Flush(false)], Ended(ops);
    assert a[..|a| - 1] == ops && b[..|b| - 1] == a;
  }

  /** What a run leaves: all bytes of each stream in its chunks, the first limit bytes of the chunks in
      the capture, and truncated exactly when the command wrote more than that. */
  lemma OutputOfRun(ops: seq<Op>, limit: nat)
    ensures var chunks := AllApplied(Ended(ops)).chunks;
            var capture := AllCaptured(limit, Texts(chunks));
            && BytesOf(chunks, false) == Input(ops, false) && BytesOf(chunks, true) == Input(ops, true)
            && AllWellCut(chunks)
            && capture.buf == First(limit, Concat(Texts(chunks)))
            && (capture.truncated <==> |Input(ops, false)| + |Input(ops, true)| > limit)
  {
    var s := AllApplied(Ended(ops));
    StreamsAreKept(Ended(ops));
    EndedInput(ops, false);
    EndedInput(ops, true);
    TotalLength(s.chunks);
    CaptureMeaning(limit, Texts(s.chunks));
    forall i | 0 <= i < |Texts(s.chunks)| ensures Texts(s.chunks)[i] != [] {
      assert WellCut(s.chunks[i]);
    }
  }

  // The writers

  class LineWriter {
    const stderr: bool
    const capture: CapBuffer
    const tail: Tails.TailBuffer?
    const file: Rotation.RotatingFile?
    var pending: Text

    ghost predicate Valid()
      reads this, capture, tail, file, if file == null then {} else {file.disk}
    {
      && capture.Valid() && (tail != null ==> tail.Valid()) && (file != null ==> file.Valid())
    }

    constructor (stderr: bool, capture: CapBuffer, tail: Tails.TailBuffer?, file: Rotation.RotatingFile?)
      ensures this.stderr == stderr && this.capture == capture && this.tail == tail && this.file == file && pending == []
    {
      this.stderr, this.capture, this.tail, this.file, pending := stderr, capture, tail, file, [];
    }

    /** Sends a chunk on to the capture, and to the file the same with ending. */
    method Send(p: Text, ending: Text)
      requires capture.Valid() && (file != null ==> file.Valid())
      modifies capture, file, if file == null then {} else {file.disk}
      ensures capture.Valid() && capture.chunks == old(capture.chunks) + [p]
      ensures file != null ==> file.Valid() && file.gens == Rotation.Wrote(old(file.gens), p + ending, file.max, file.backups)
    {
      capture.Write(p);
      if file != null {
        file.Write(p + ending);
      }
    }

    method Write(p: Text)
      requires Valid()
      modifies this, capture, tail, file, if file == null then {} else {file.disk}
      ensures Valid() && SentOn(old(pending) + p, pending, old(capture.chunks))
      ensures file != null ==> file.gens == FileAfter(old(file.gens), old(pending) + p, file.max, file.backups)
      ensures tail != null ==> tail.all == old(tail.all) + p
    {
      SendLines(p);
      if tail != null {
        tail.Write(p);
      }
    }

    /** What is sent on of all the bytes, and what stays pending. */
    ghost predicate SentOn(all: Text, rest: Text, before: seq<Text>)
      reads capture
    {
      rest == all[Sent(all)..] && capture.chunks == before + SentNow(all)
    }

    method SendLines(p: Text)
      requires capture.Valid() && (file != null ==> file.Valid())
      modifies this, capture, file, if file == null then {} else {file.disk}
      ensures capture.Valid() && (file != null ==> file.Valid())
      ensures SentOn(old(pending) + p, pending, old(capture.chunks))
      ensures file != null ==> file.gens == FileAfter(old(file.gens), old(pending) + p, file.max, file.backups)
    {
      pending := pending + p;
      var i := LinesEnd(pending);
      if i > 0 {
        Send(pending[..i], []);
        assert pending[..i] + [] == pending[..i];
        pending := pending[i..];
      } else if |pending| > MAX_LOG_LINE {
        Send(pending, []);
        assert pending[..|pending|] == pending + [] == pending;
        pending := [];
      }
    }

    method Flush()
      requires Valid()
      modifies this, capture, file, if file == null then {} else {file.disk}
      ensures Valid() && pending == []
      ensures var all := old(pending);
              && capture.chunks == old(capture.chunks) + (if all == [] then [] else [all])
              && (file != null ==> file.gens == FileEnded(old(file.gens), all, file.max, file.backups))
    {
      ghost var all := pending;
      if |pending| > 0 {
        Send(pending, [LF]);
        assert all != [] && capture.chunks == old(capture.chunks) + [all];
        pending := [];
      }
    }
  }

  /** The output of one run: its two writers share the capture and the file, and the tail is that of
      stderr. The methods take what was done so far. */
  class RunOutput {
    const capture: CapBuffer
    const tail: Tails.TailBuffer
    const stdout: LineWriter
    const stderr: LineWriter
    const file: Rotation.RotatingFile?
    /** The files as the run found them. */
    ghost const begun: Rotation.Generations

    ghost function Files(): set<object>
      reads file
    {
      if file == null then {} else {file, file.disk}
    }

    ghost predicate Valid(ops: seq<Op>)
      reads this, capture, tail, stdout, stderr, file, Files()
    {
      Wired() && PartsValid() && Stands(ops) && FileStands(ops)
    }

    constructor (file: Rotation.RotatingFile?)
      requires file != null ==> file.Valid()
      ensures file != null ==> begun == file.gens
      ensures Valid([]) && this.file == file && fresh(capture) && fresh(tail) && fresh(stdout) && fresh(stderr)
    {
      var c := new CapBuffer(MAX_CAPTURED_OUTPUT);
      var t := new Tails.TailBuffer(TAIL_LINES, TAIL_BYTES);
      capture, tail := c, t;
      stdout := new LineWriter(false, c, null, file);
      stderr := new LineWriter(true, c, t, file);
      this.file, begun := file, if file == null then [] else file.gens;
    }

    method Write(toStderr: bool, p: Text, ghost ops: seq<Op>)
      requires Valid(ops)
      modifies capture, tail, stdout, stderr, Files()
      ensures Valid(ops + [Op.Write(toStderr, p)])
    {
      if toStderr {
        WriteErr(p, ops);
      } else {
        WriteOut(p, ops);
      }
    }

    method WriteErr(p: Text, ghost ops: seq<Op>)
      requires Valid(ops)
      modifies capture, tail, stderr, Files()
      ensures Valid(ops + [Op.Write(true, p)])
    {
      if file != null {
        WriteFiles(stdout.pending, stderr.pending, capture.chunks, tail.all, begun, ops, true, p, file.max, file.backups);
      }
      PutErr(p, ops);
    }

    method WriteOut(p: Text, ghost ops: seq<Op>)
      requires Valid(ops)
      modifies capture, stdout, Files()
      ensures Valid(ops + [Op.Write(false, p)])
    {
      if file != null {
        WriteFiles(stdout.pending, stderr.pending, capture.chunks, tail.all, begun, ops, false, p, file.max, file.backups);
      }
      PutOut(p, ops);
    }

    ghost predicate Wired()
      reads this, stdout, stderr
    {
      && stdout != stderr && !stdout.stderr && stderr.stderr
      && stdout.capture == stderr.capture == capture && stdout.file == stderr.file == file
      && stdout.tail == null && stderr.tail == tail
      && capture.limit == MAX_CAPTURED_OUTPUT && tail.maxLines == TAIL_LINES && tail.maxBytes == TAIL_BYTES
    }

    ghost predicate PartsValid()
      reads capture, tail, file, Files()
    {
      capture.Valid() && tail.Valid() && (file != null ==> file.Valid())
    }

    ghost predicate Stands(ops: seq<Op>)
      reads this, capture, tail, stdout, stderr
    {
      Mirrors(stdout.pending, stderr.pending, capture.chunks, tail.all, ops)
    }

    /** The file has what was sent on. */
    ghost predicate FileStands(ops: seq<Op>)
      reads file
    {
      file != null ==> file.gens == Filed(begun, AllApplied(ops).chunks, file.max, file.backups)
    }

    method PutErr(p: Text, ghost ops: seq<Op>)
      requires Wired() && PartsValid() && Stands(ops)
      modifies capture, tail, stderr, Files()
      ensures PartsValid() && Stands(ops + [Op.Write(true, p)])
      ensures file != null ==> file.gens == FileAfter(old(file.gens), old(stderr.pending) + p, file.max, file.backups)
    {
      ghost var out, err, chunks, was := stdout.pending, stderr.pending, capture.chunks, tail.all;
      stderr.Write(p);
      assert stdout.pending == out && tail.all == was + p;
      assert stderr.pending == (err + p)[Sent(err + p)..] && capture.chunks == chunks + SentNow(err + p);
      WriteErrMirrors(out, err, chunks, was, ops, p);
    }

    method PutOut(p: Text, ghost ops: seq<Op>)
      requires Wired() && PartsValid() && Stands(ops)
      modifies capture, stdout, Files()
      ensures PartsValid() && Stands(ops + [Op.Write(false, p)])
      ensures file != null ==> file.gens == FileAfter(old(file.gens), old(stdout.pending) + p, file.max, file.backups)
    {
      ghost var out, err, chunks, was := stdout.pending, stderr.pending, capture.chunks, tail.all;
      stdout.Write(p);
      assert stderr.pending == err && tail.all == was;
      assert stdout.pending == (out + p)[Sent(out + p)..] && capture.chunks == chunks + SentNow(out + p);
      WriteOutMirrors(out, err, chunks, was, ops, p);
    }

    /** The end of the run. */
    method Finish(ghost ops: seq<Op>) returns (output: Text, truncated: bool)
      requires Valid(ops)
      modifies capture, tail, stdout, stderr, Files()
      ensures Valid(Ended(ops))
      ensures output == First(MAX_CAPTURED_OUTPUT, Concat(Texts(AllApplied(Ended(ops)).chunks)))
      ensures truncated <==> |Input(ops, false)| + |Input(ops, true)| > MAX_CAPTURED_OUTPUT
      ensures file != null ==> file.gens == Filed(begun, AllApplied(Ended(ops)).chunks, file.max, file.backups)
    {
      FlushOut(ops);
      FlushErr(ops + [Flush(false)]);
      output, truncated := capture.buf, capture.truncated;
      OutputOfRun(ops, MAX_CAPTURED_OUTPUT);
    }

    method FlushErr(ghost ops: seq<Op>)
      requires Valid(ops)
      modifies capture, stderr, Files()
      ensures Valid(ops + [Flush(true)])
    {
      if file != null {
        FlushFiles(stdout.pending, stderr.pending, capture.chunks, tail.all, begun, ops, true, file.max, file.backups);
      }
      EndErr(ops);
    }

    method FlushOut(ghost ops: seq<Op>)
      requires Valid(ops)
      modifies capture, stdout, Files()
      ensures Valid(ops + [Flush(false)])
    {
      if file != null {
        FlushFiles(stdout.pending, stderr.pending, capture.chunks, tail.all, begun, ops, false, file.max, file.backups);
      }
      EndOut(ops);
    }

    method EndOut(ghost ops: seq<Op>)
      requires Wired() && PartsValid() && Stands(ops)
      modifies capture, stdout, Files()
      ensures PartsValid() && Stands(ops + [Flush(false)])
      ensures file != null ==> file.gens == FileEnded(old(file.gens), old(stdout.pending), file.max, file.backups)
    {
      ghost var out, err, chunks, was := stdout.pending, stderr.pending, capture.chunks, tail.all;
      stdout.Flush();
      assert stderr.pending == err && tail.all == was;
      FlushMirrors(out, err, chunks, was, ops, false);
    }

    method EndErr(ghost ops: seq<Op>)
      requires Wired() && PartsValid() && Stands(ops)
      modifies capture, stderr, Files()
      ensures PartsValid() && Stands(ops + [Flush(true)])
      ensures file != null ==> file.gens == FileEnded(old(file.gens), old(stderr.pending), file.max, file.backups)
    {
      ghost var out, err, chunks, was := stdout.pending, stderr.pending, capture.chunks, tail.all;
      stderr.Flush();
      assert stdout.pending == out && tail.all == was;
      FlushMirrors(out, err, chunks, was, ops, true);
    }
  }

  /** The parts of a run's output stand for the state that the writes and flushes lead to. */
  ghost predicate Mirrors(out: Text, err: Text, chunks: seq<Text>, tail: Text, ops: seq<Op>) {
    var s := AllApplied(ops);
    s.out == out && s.err == err && Texts(s.chunks) == chunks && tail == Input(ops, true)
  }

  /** What is sent on of all the bytes. */
  function SentNow(all: Text): seq<Text> {
    if Sent(all) == 0 then [] else [all[..Sent(all)]]
  }

  lemma WrittenTexts(s: Streams, stderr: bool, p: Text)
    ensures var all := Pending(s, stderr) + p;
            var after := Written(s, stderr, p);
            && Texts(after.chunks) == Texts(s.chunks) + SentNow(all)
            && Pending(after, stderr) == all[Sent(all)..] && Pending(after, !stderr) == Pending(s, !stderr)
  {
    var all := Pending(s, stderr) + p;
    if Sent(all) == 0 {
      assert all[0..] == all;
    } else {
      AddedChunk(s.chunks, Chunk(stderr, all[..Sent(all)], false), true);
    }
  }

  lemma WriteOutMirrors(out: Text, err: Text, chunks: seq<Text>, tail: Text, ops: seq<Op>, p: Text)
    requires Mirrors(out, err, chunks, tail, ops)
    ensures var all := out + p;
            Mirrors(all[Sent(all)..], err, chunks + SentNow(all), tail, ops + [Write(false, p)])
  {
    ApplyMore(ops, Write(false, p));
    InputOfMore(ops, Write(false, p), true);
    WrittenTexts(AllApplied(ops), false, p);
  }

  lemma WriteErrMirrors(out: Text, err: Text, chunks: seq<Text>, tail: Text, ops: seq<Op>, p: Text)
    requires Mirrors(out, err, chunks, tail, ops)
    ensures var all := err + p;
            Mirrors(out, all[Sent(all)..], chunks + SentNow(all), tail + p, ops + [Write(true, p)])
  {
    ApplyMore(ops, Write(true, p));
    InputOfMore(ops, Write(true, p), true);
    WrittenTexts(AllApplied(ops), true, p);
  }

  lemma FlushMirrors(out: Text, err: Text, chunks: seq<Text>, tail: Text, ops: seq<Op>, stderr: bool)
    requires Mirrors(out, err, chunks, tail, ops)
    ensures var all := if stderr then err else out;
            var more := chunks + if all == [] then [] else [all];
            if stderr then Mirrors(out, [], more, tail, ops + [Flush(stderr)])
            else Mirrors([], err, more, tail, ops + [Flush(stderr)])
  {
    var s := AllApplied(ops);
    ApplyMore(ops, Flush(stderr));
    InputOfMore(ops, Flush(stderr), true);
    AddedChunk(s.chunks, Chunk(stderr, Pending(s, stderr), true), true);
  }

  lemma WriteFiles(out: Text, err: Text, chunks: seq<Text>, tail: Text, begun: Rotation.Generations, ops: seq<Op>,
                   stderr: bool, p: Text, max: nat, backups: nat)
    requires Mirrors(out, err, chunks, tail, ops)
    ensures Filed(begun, AllApplied(ops + [Write(stderr, p)]).chunks, max, backups)
         == FileAfter(Filed(begun, AllApplied(ops).chunks, max, backups), (if stderr then err else out) + p, max, backups)
  {
    var s := AllApplied(ops);
    var all := Pending(s, stderr) + p;
    ApplyMore(ops, Write(stderr, p));
    FiledMore(begun, s.chunks, Chunk(stderr, all[..Sent(all)], false), max, backups);
  }

  lemma FlushFiles(out: Text, err: Text, chunks: seq<Text>, tail: Text, begun: Rotation.Generations, ops: seq<Op>,
                   stderr: bool, max: nat, backups: nat)
    requires Mirrors(out, err, chunks, tail, ops)
    ensures Filed(begun, AllApplied(ops + [Flush(stderr)]).chunks, max, backups)
         == FileEnded(Filed(begun, AllApplied(ops).chunks, max, backups), if stderr then err else out, max, backups)
  {
    var s := AllApplied(ops);
    ApplyMore(ops, Flush(stderr));
    FiledMore(begun, s.chunks, Chunk(stderr, Pending(s, stderr), true), max, backups);
  }

  lemma ApplyMore(ops: seq<Op>, op: Op)
    ensures AllApplied(ops + [op]) == Apply(AllApplied(ops), op)
  {
    assert (ops + [op])[..|ops|] == ops;
  }
}
