/** Bounded command output: capture and framing in the guest (cmd/guest-agent/main.go), reading on the host
    (internal/core/vsock/client.go). Characters stand for bytes. */
module Streaming {
  import opened Common

  const PROTOCOL_VERSION: int := 1
  const MAX_OUTPUT: nat := 10 * 1024 * 1024
  const MAX_FRAME: nat := 64 * 1024
  const MARKER: string := "\n[OUTPUT TRUNCATED DUE TO SIZE LIMIT]"

  // ---- the limited buffer ----

  datatype Captured = Captured(buf: string, truncated: bool)

  function Wrote(b: Captured, limit: nat, p: string): (r: Captured) {
    if b.truncated then b
    else if limit <= |b.buf| then b.(truncated := true)
    else if |p| > limit - |b.buf| then Captured(b.buf + p[..limit - |b.buf|], true)
    else b.(buf := b.buf + p)
  }

  class LimitedBuffer {
    const limit: nat
    var buf: string
    var truncated: bool

    ghost function View(): Captured
      reads this
    {
      Captured(buf, truncated)
    }

    constructor (limit: nat)
      ensures this.limit == limit && View() == Captured("", false)
    {
      this.limit := limit;
      buf, truncated := "", false;
    }

    /** Write always claims to have taken everything. */
    method Write(p: string) returns (n: nat)
      modifies this
      ensures View() == Wrote(old(View()), limit, p) && n == |p|
    {
      n := |p|;
      if truncated { return; }
      var remaining := limit - |buf|;
      if remaining <= 0 {
        truncated := true;
        return;
      }
      if |p| > remaining {
        buf := buf + p[..remaining];
        truncated := true;
        return;
      }
      buf := buf + p;
    }
  }

  function WroteAll(limit: nat, ps: seq<string>): (r: Captured) {
    if ps == [] then Captured("", false) else Wrote(WroteAll(limit, ps[..|ps| - 1]), limit, ps[|ps| - 1])
  }

  function Concat(ps: seq<string>): (r: string) {
    if ps == [] then "" else Concat(ps[..|ps| - 1]) + ps[|ps| - 1]
  }

  function Take(s: string, n: nat): (r: string) {
    if |s| <= n then s else s[..n]
  }

  /** Some write, empty or not, came when the buffer was already exactly full. */
  ghost predicate WroteWhenFull(limit: nat, ps: seq<string>) {
    exists k :: 0 <= k < |ps| && |Concat(ps[..k])| == limit
  }

  lemma {:induction false} ConcatGrows(ps: seq<string>, k: nat)
    requires k <= |ps|
    ensures Concat(ps[..k]) <= Concat(ps)
    decreases |ps|
  {
    if k == |ps| {
      assert ps[..k] == ps;
    } else {
      assert ps[..|ps| - 1][..k] == ps[..k];
      ConcatGrows(ps[..|ps| - 1], k);
    }
  }

  lemma FullAfter(limit: nat, ps: seq<string>)
    requires ps != []
    ensures WroteWhenFull(limit, ps) <==> WroteWhenFull(limit, ps[..|ps| - 1]) || |Concat(ps[..|ps| - 1])| == limit
  {
    var init := ps[..|ps| - 1];
    assert forall k :: 0 <= k < |init| ==> init[..k] == ps[..k];
    if WroteWhenFull(limit, ps) {
      var k :| 0 <= k < |ps| && |Concat(ps[..k])| == limit;
      if k < |init| { assert init[..k] == ps[..k]; }
    }
  }

  /** The buffer holds the longest prefix of what was written that fits; it is marked truncated exactly when something
      did not fit or a write came after it was exactly full. */
  lemma {:induction false} CaptureIsLongestPrefix(limit: nat, ps: seq<string>)
    ensures var b := WroteAll(limit, ps);
            && b.buf == Take(Concat(ps), limit)
            && (b.truncated <==> |Concat(ps)| > limit || WroteWhenFull(limit, ps))
    decreases |ps|
  {
    if ps != [] {
      var init := ps[..|ps| - 1];
      CaptureIsLongestPrefix(limit, init);
      FullAfter(limit, ps);
      var k := if WroteWhenFull(limit, init) then FirstFull(limit, init) else 0;
      if WroteWhenFull(limit, init) { ConcatGrows(init, k); }
    }
  }

  ghost function FirstFull(limit: nat, ps: seq<string>): (k: nat)
    requires WroteWhenFull(limit, ps)
    ensures k < |ps| && |Concat(ps[..k])| == limit
  {
    var k: nat :| k < |ps| && |Concat(ps[..k])| == limit;
    k
  }

  /** When no write is empty, the mark is there exactly when output was lost. */
  lemma TruncatedMeansLoss(limit: nat, ps: seq<string>)
    requires forall p :: p in ps ==> p != ""
    ensures WroteAll(limit, ps).truncated <==> |Concat(ps)| > limit
  {
    CaptureIsLongestPrefix(limit, ps);
    if WroteWhenFull(limit, ps) {
      var k := FirstFull(limit, ps);
      ConcatGrows(ps, k + 1);
      assert ps[..k + 1][..k] == ps[..k];
      assert ps[k] in ps && Concat(ps[..k + 1]) == Concat(ps[..k]) + ps[k];
    }
  }

  /** Why that needs non-empty writes: taken by itself, Write marks an exactly full buffer on an empty write, with
      nothing lost. The command's output never comes that way, since os/exec copies only what it has read. */
  lemma EmptyWriteMarksFullBuffer(s: string)
    ensures WroteAll(|s|, [s, ""]) == Captured(s, true) && Concat([s, ""]) == s
  {
    assert [s, ""][..1] == [s] && [s][..0] == [];
    assert WroteAll(|s|, [s]).buf == s && Concat([s]) == s;
    assert Concat([s, ""]) == Concat([s]) + "";
  }

  // ---- results and frames ----

  datatype ExecResult = ExecResult(
    version: int, id: string, exitCode: int, stdout: string, stderr: string, error: string)

  datatype Frame = Frame(version: int, id: string, stream: string, data: string, result: Option<ExecResult>)

  /** The output text execute puts into the result. */
  function OutputText(b: Captured): (r: string) {
    b.buf + if b.truncated then MARKER else ""
  }

  function Chunks(data: string): (r: seq<string>)
    decreases |data|
  {
    if data == "" then []
    else if |data| <= MAX_FRAME then [data]
    else [data[..MAX_FRAME]] + Chunks(data[MAX_FRAME..])
  }

  function OutputFrames(id: string, stream: string, chunks: seq<string>): (r: seq<Frame>)
    ensures |r| == |chunks|
    ensures forall k :: 0 <= k < |r| ==> r[k] == Frame(PROTOCOL_VERSION, id, stream, chunks[k], None)
  {
    seq(|chunks|, k requires 0 <= k < |chunks| => Frame(PROTOCOL_VERSION, id, stream, chunks[k], None))
  }

  function LastFrame(res: ExecResult): Frame {
    Frame(PROTOCOL_VERSION, res.id, "", "", Some(res.(stdout := "", stderr := "")))
  }

  function Outputs(res: ExecResult): seq<Frame> {
    OutputFrames(res.id, "stdout", Chunks(res.stdout)) + OutputFrames(res.id, "stderr", Chunks(res.stderr))
  }

  function Frames(res: ExecResult): seq<Frame> {
    Outputs(res) + [LastFrame(res)]
  }

  lemma ConcatOne(x: string)
    ensures Concat([x]) == x
  {
    assert [x][..0] == [];
    assert Concat([x]) == Concat([]) + x;
  }

  lemma {:induction false} ChunksJoin(data: string)
    ensures Concat(Chunks(data)) == data
    decreases |data|
  {
    if |data| > MAX_FRAME {
      var head, rest := data[..MAX_FRAME], data[MAX_FRAME..];
      ChunksJoin(rest);
      ConcatCons(head, Chunks(rest));
      assert head + rest == data;
    } else if data != "" {
      ConcatOne(data);
    }
  }

  lemma {:induction false} ChunksFew(data: string)
    ensures MAX_FRAME * |Chunks(data)| < |data| + MAX_FRAME
    decreases |data|
  {
    if |data| > MAX_FRAME { ChunksFew(data[MAX_FRAME..]); }
  }

  lemma {:induction false} ChunksBounded(data: string)
    ensures forall c :: c in Chunks(data) ==> 0 < |c| <= MAX_FRAME
    decreases |data|
  {
    if |data| > MAX_FRAME { ChunksBounded(data[MAX_FRAME..]); }
  }

  /** The chunks are the data cut up: non-empty, bounded, and as few as the bound allows. */
  lemma ChunksCutData(data: string)
    ensures Concat(Chunks(data)) == data
    ensures forall c :: c in Chunks(data) ==> 0 < |c| <= MAX_FRAME
    ensures MAX_FRAME * |Chunks(data)| < |data| + MAX_FRAME
  {
    ChunksJoin(data);
    ChunksFew(data);
    ChunksBounded(data);
  }

  lemma {:induction false} ConcatCons(x: string, ps: seq<string>)
    ensures Concat([x] + ps) == x + Concat(ps)
    decreases |ps|
  {
    if ps == [] {
      assert [x] + ps == [x] && [x][..0] == [];
      assert Concat([x]) == Concat([]) + x;
    } else {
      var init := ps[..|ps| - 1];
      assert ([x] + ps)[..|ps|] == [x] + init;
      ConcatCons(x, init);
    }
  }

  /** At most n leading elements. */
  function Cut<T>(s: seq<T>, n: nat): (r: seq<T>) {
    if n < |s| then s[..n] else s
  }

  /** The inner loop of streamResult for one stream; `writes` is how many writes to the connection succeed. */
  method StreamOne(id: string, name: string, output: string, writes: nat) returns (sent: seq<Frame>, complete: bool)
    ensures sent == Cut(OutputFrames(id, name, Chunks(output)), writes)
    ensures complete <==> |Chunks(output)| <= writes
  {
    var data := output;
    sent := [];
    ghost var full := Chunks(output);
    while |data| > 0
      invariant |sent| <= writes && |sent| <= |full|
      invariant Chunks(data) == full[|sent|..]
      invariant sent == OutputFrames(id, name, full)[..|sent|]
      decreases |data|
    {
      var n := |data|;
      if n > MAX_FRAME { n := MAX_FRAME; }
      assert Chunks(data)[0] == data[..n] && Chunks(data)[1..] == Chunks(data[n..]);
      if |sent| >= writes { return sent, false; }
      sent := sent + [Frame(PROTOCOL_VERSION, id, name, data[..n], None)];
      data := data[n..];
    }
    complete := true;
  }

  function Named(res: ExecResult, i: int): (string, string) {
    if i == 0 then ("stdout", res.stdout) else ("stderr", res.stderr)
  }

  /** The output frames of the first i streams. */
  ghost function Done(res: ExecResult, i: int): (r: seq<Frame>) {
    if i <= 0 then [] else Done(res, i - 1) + OutputFrames(res.id, Named(res, i - 1).0, Chunks(Named(res, i - 1).1))
  }

  lemma DoneGrows(res: ExecResult, i: int)
    requires 0 <= i <= 2
    ensures Done(res, i) <= Frames(res) && Done(res, 2) == Outputs(res)
  {
    assert Done(res, 0) == [];
    assert Done(res, 1) == OutputFrames(res.id, "stdout", Chunks(res.stdout));
  }

  lemma CutPrefix<T>(a: seq<T>, b: seq<T>, c: seq<T>, n: nat)
    requires |a| <= n < |a + b| && a + b <= c
    ensures a + Cut(b, n - |a|) == Cut(c, n)
  {
  }

  /** streamResult sends the frames of the result in order, as far as the connection takes them. */
  method StreamResult(res: ExecResult, writes: nat) returns (sent: seq<Frame>)
    ensures sent == Cut(Frames(res), writes)
  {
    sent := [];
    for i := 0 to 2
      invariant |sent| <= writes && sent == Done(res, i)
    {
      var (name, data) := Named(res, i);
      var part, complete := StreamOne(res.id, name, data, writes - |sent|);
      if !complete {
        DoneGrows(res, i + 1);
        CutPrefix(sent, OutputFrames(res.id, name, Chunks(data)), Frames(res), writes);
        return sent + part;
      }
      sent := sent + part;
    }
    DoneGrows(res, 2);
    if |sent| < writes { sent := sent + [LastFrame(res)]; }
  }

  // ---- the host reader ----

  /** How ExecStream ends: with the terminal result, on a bad frame, when the connection gives no further frame, or
      because the receiver returned an error. */
  datatype Ending = Finished(result: ExecResult) | BadFrame | Broken | ReceiverFailed

  predicate ForRequest(f: Frame, id: string) {
    f.version == PROTOCOL_VERSION && f.id == id
  }

  predicate GoodOutput(f: Frame, id: string) {
    ForRequest(f, id) && f.result.None? && (f.stream == "stdout" || f.stream == "stderr") && |f.data| <= MAX_FRAME
  }

  /** The frames the receiver accepts and the ending; it accepts `patience` frames before it fails. */
  function Read(frames: seq<Frame>, id: string, patience: nat): (r: (seq<Frame>, Ending))
    decreases |frames|
  {
    if frames == [] then ([], Broken)
    else
      var f := frames[0];
      if !ForRequest(f, id) then ([], BadFrame)
      else if f.result.Some? then ([], Finished(f.result.value))
      else if !GoodOutput(f, id) then ([], BadFrame)
      else if patience == 0 then ([], ReceiverFailed)
      else
        var (rest, ending) := Read(frames[1..], id, patience - 1);
        ([f] + rest, ending)
  }

  /** A good frame is delivered and the reading goes on behind it. */
  lemma ReadOne(frames: seq<Frame>, i: nat, id: string, patience: nat)
    requires i < |frames| && GoodOutput(frames[i], id) && patience > 0
    ensures var (rest, ending) := Read(frames[i + 1..], id, patience - 1);
            Read(frames[i..], id, patience) == ([frames[i]] + rest, ending)
  {
    assert frames[i..][1..] == frames[i + 1..];
  }

  /** ExecStream's loop over the frames the connection yields. */
  method ExecStream(frames: seq<Frame>, id: string, patience: nat) returns (got: seq<Frame>, ending: Ending)
    ensures (got, ending) == Read(frames, id, patience)
  {
    got := [];
    var i := 0;
    ghost var whole := Read(frames, id, patience);
    assert frames[0..] == frames;
    while true
      invariant 0 <= i <= |frames| && i == |got| <= patience
      invariant whole.0 == got + Read(frames[i..], id, patience - i).0
      invariant whole.1 == Read(frames[i..], id, patience - i).1
      decreases |frames| - i
    {
      assert got + [] == got;
      if i == |frames| { return got, Broken; }
      var f := frames[i];
      assert frames[i..][0] == f;
      if f.version != PROTOCOL_VERSION || f.id != id { return got, BadFrame; }
      if f.result.Some? { return got, Finished(f.result.value); }
      if (f.stream != "stdout" && f.stream != "stderr") || |f.data| > MAX_FRAME { return got, BadFrame; }
      if i == patience { return got, ReceiverFailed; }
      ReadOne(frames, i, id, patience - i);
      got := got + [f];
      i := i + 1;
    }
  }

  /** How the first frame that is not delivered ends the reading: with its result if it has one and is of this request
      and version; with the receiver's error if it is a good output frame; and otherwise as a bad frame. */
  predicate EndsAt(f: Frame, id: string, receiverFails: bool, ending: Ending) {
    var ours := f.version == 1 && f.id == id;
    var output := f.result.None? && (f.stream == "stdout" || f.stream == "stderr") && |f.data| <= 65536;
    && (ending.Finished? <==> ours && f.result.Some?)
    && (ending.Finished? ==> f.result == Some(ending.result))
    && (ending.ReceiverFailed? <==> ours && output)
    && (ending.ReceiverFailed? ==> receiverFails)
    && (ending.BadFrame? <==> !ours || (f.result.None? && !output))
  }

  /** Whatever the guest sends, the receiver sees a prefix of it made of well-formed, bounded frames of this request,
      and the first frame after that prefix decides the ending. */
  lemma {:induction false} ReaderIsSafe(frames: seq<Frame>, id: string, patience: nat)
    ensures var (got, ending) := Read(frames, id, patience);
            && |got| <= |frames| && |got| <= patience && got == frames[..|got|]
            && (forall k :: 0 <= k < |got| ==>
                  && got[k].version == 1 && got[k].id == id && got[k].result.None? && |got[k].data| <= 65536
                  && (got[k].stream == "stdout" || got[k].stream == "stderr"))
            && (ending.Broken? <==> got == frames)
            && (got != frames ==> EndsAt(frames[|got|], id, |got| == patience, ending))
    decreases |frames|
  {
    if frames != [] && GoodOutput(frames[0], id) && patience > 0 {
      ReaderIsSafe(frames[1..], id, patience - 1);
      var (rest, ending) := Read(frames[1..], id, patience - 1);
      assert frames == [frames[0]] + frames[1..];
    }
  }

  lemma {:induction false} ReadThrough(good: seq<Frame>, tail: seq<Frame>, id: string, patience: nat)
    requires |good| <= patience && forall k :: 0 <= k < |good| ==> GoodOutput(good[k], id)
    ensures Read(good + tail, id, patience).0 == good + Read(tail, id, patience - |good|).0
    ensures Read(good + tail, id, patience).1 == Read(tail, id, patience - |good|).1
    decreases |good|
  {
    if good == [] {
      assert good + tail == tail;
    } else {
      assert (good + tail)[1..] == good[1..] + tail;
      ReadThrough(good[1..], tail, id, patience - 1);
      var rest := Read(tail, id, patience - |good|).0;
      assert [good[0]] + (good[1..] + rest) == good + rest;
    }
  }

  // ---- reassembly ----

  function Join(frames: seq<Frame>, stream: string): (r: string) {
    if frames == [] then ""
    else
      var last := frames[|frames| - 1];
      Join(frames[..|frames| - 1], stream) + if last.stream == stream then last.data else ""
  }

  lemma {:induction false} JoinConcat(a: seq<Frame>, b: seq<Frame>, stream: string)
    ensures Join(a + b, stream) == Join(a, stream) + Join(b, stream)
    decreases |b|
  {
    if b == [] {
      assert a + b == a;
    } else {
      assert (a + b)[..|a + b| - 1] == a + b[..|b| - 1];
      JoinConcat(a, b[..|b| - 1], stream);
    }
  }

  lemma {:induction false} JoinChunks(id: string, name: string, chunks: seq<string>, stream: string)
    ensures Join(OutputFrames(id, name, chunks), stream) == if stream == name then Concat(chunks) else ""
    decreases |chunks|
  {
    if chunks != [] {
      var init := chunks[..|chunks| - 1];
      var frames := OutputFrames(id, name, chunks);
      assert frames[..|frames| - 1] == OutputFrames(id, name, init);
      JoinChunks(id, name, init, stream);
    }
  }

  lemma OutputsJoin(res: ExecResult)
    ensures Join(Outputs(res), "stdout") == res.stdout && Join(Outputs(res), "stderr") == res.stderr
  {
    var a, b := OutputFrames(res.id, "stdout", Chunks(res.stdout)), OutputFrames(res.id, "stderr", Chunks(res.stderr));
    JoinConcat(a, b, "stdout");
    JoinConcat(a, b, "stderr");
    JoinChunks(res.id, "stdout", Chunks(res.stdout), "stdout");
    JoinChunks(res.id, "stdout", Chunks(res.stdout), "stderr");
    JoinChunks(res.id, "stderr", Chunks(res.stderr), "stdout");
    JoinChunks(res.id, "stderr", Chunks(res.stderr), "stderr");
    ChunksJoin(res.stdout);
    ChunksJoin(res.stderr);
  }

  lemma OutputsAreGood(res: ExecResult)
    ensures forall k :: 0 <= k < |Outputs(res)| ==> GoodOutput(Outputs(res)[k], res.id)
  {
    ChunksBounded(res.stdout);
    ChunksBounded(res.stderr);
    forall k | 0 <= k < |Outputs(res)| ensures GoodOutput(Outputs(res)[k], res.id) {
      var n := |Chunks(res.stdout)|;
      if k < n {
        assert Chunks(res.stdout)[k] in Chunks(res.stdout);
      } else {
        assert Chunks(res.stderr)[k - n] in Chunks(res.stderr);
      }
    }
  }

  /** Every frame of an undisturbed stream passes the reader's checks; the receiver gets exactly the output, split back
      into the two streams, stdout before stderr, and the caller the result without it. */
  lemma StreamRoundTrip(res: ExecResult, patience: nat)
    requires |Outputs(res)| <= patience
    ensures var (got, ending) := Read(Frames(res), res.id, patience);
            && ending == Finished(res.(stdout := "", stderr := ""))
            && Join(got, "stdout") == res.stdout && Join(got, "stderr") == res.stderr
            && (forall i, j :: 0 <= i < j < |got| && got[i].stream == "stderr" ==> got[j].stream == "stderr")
  {
    OutputsAreGood(res);
    ReadThrough(Outputs(res), [LastFrame(res)], res.id, patience);
    assert Outputs(res) + [] == Outputs(res);
    OutputsJoin(res);
  }

  /** When the connection breaks before the last frame, the reader reports it, and what the receiver got of each stream
      is a prefix of that stream. */
  lemma BrokenStreamGivesPrefix(res: ExecResult, writes: nat, patience: nat)
    requires writes < |Frames(res)| && |Outputs(res)| <= patience
    ensures var (got, ending) := Read(Cut(Frames(res), writes), res.id, patience);
            ending == Broken && Join(got, "stdout") <= res.stdout && Join(got, "stderr") <= res.stderr
  {
    var sent, lost := Outputs(res)[..writes], Outputs(res)[writes..];
    assert Cut(Frames(res), writes) == sent + [];
    OutputsAreGood(res);
    ReadThrough(sent, [], res.id, patience);
    assert sent + [] == sent && sent + lost == Outputs(res);
    OutputsJoin(res);
    JoinConcat(sent, lost, "stdout");
    JoinConcat(sent, lost, "stderr");
  }

  // ---- from the command's writes to the host ----

  /** What a stream of this output ends up as. */
  function Bounded(output: string): string {
    if |output| <= 10485760 then output else output[..10485760] + "\n[OUTPUT TRUNCATED DUE TO SIZE LIMIT]"
  }

  lemma ExpectedText(ps: seq<string>)
    requires forall p :: p in ps ==> p != ""
    ensures OutputText(WroteAll(MAX_OUTPUT, ps)) == Bounded(Concat(ps))
    ensures |Bounded(Concat(ps))| <= MAX_OUTPUT + |MARKER|
  {
    CaptureIsLongestPrefix(MAX_OUTPUT, ps);
    TruncatedMeansLoss(MAX_OUTPUT, ps);
  }

  lemma FewFrames(res: ExecResult)
    requires |res.stdout| <= MAX_OUTPUT + |MARKER| && |res.stderr| <= MAX_OUTPUT + |MARKER|
    ensures |Chunks(res.stdout)| <= 161 && |Chunks(res.stderr)| <= 161
    ensures |Outputs(res)| <= 322 && |Frames(res)| <= 323
  {
    assert |MARKER| == 37;
    ChunksFew(res.stdout);
    ChunksFew(res.stderr);
  }

  /** From the command's writes to the host's receiver: each stream arrives as its longest prefix of at most 10 MiB,
      with the marker exactly when more was written, in at most 161 frames a stream and 323 in all. */
  lemma OutputArrivesBounded(outs: seq<string>, errs: seq<string>, id: string, exitCode: int, error: string,
                             patience: nat)
    requires (forall p :: p in outs ==> p != "") && (forall p :: p in errs ==> p != "") && patience >= 322
    ensures var res := ExecResult(PROTOCOL_VERSION, id, exitCode, OutputText(WroteAll(MAX_OUTPUT, outs)),
                                  OutputText(WroteAll(MAX_OUTPUT, errs)), error);
            var (got, ending) := Read(Frames(res), id, patience);
            && ending == Finished(ExecResult(PROTOCOL_VERSION, id, exitCode, "", "", error))
            && Join(got, "stdout") == Bounded(Concat(outs)) && Join(got, "stderr") == Bounded(Concat(errs))
            && |Chunks(res.stdout)| <= 161 && |Chunks(res.stderr)| <= 161 && |Frames(res)| <= 323
  {
    var out, err := OutputText(WroteAll(MAX_OUTPUT, outs)), OutputText(WroteAll(MAX_OUTPUT, errs));
    var res := ExecResult(PROTOCOL_VERSION, id, exitCode, out, err, error);
    ExpectedText(outs);
    ExpectedText(errs);
    FewFrames(res);
    StreamRoundTrip(res, patience);
  }
}
