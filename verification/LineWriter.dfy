/**
 cmd/agent/main.go: command output reaches the server line by line, however the process
 chunks its writes, and several commands share one connection. Sending is taken to succeed;
 the source ignores its errors.
 */
module LineWriter {
  import opened GoStrings

  datatype Message = Output(id: string, line: string) | Done(id: string, exitCode: nat, error: string)

  // ---- Lines of a byte stream -----------------------------------------------

  /** strings.TrimRight(line, "\r"): every trailing carriage return goes. */
  function TrimRight(line: string): (r: string)
    ensures r <= line && (r != [] ==> r[|r| - 1] != '\r')
    ensures forall k | |r| <= k < |line| :: line[k] == '\r'
  {
    if line != [] && line[|line| - 1] == '\r' then TrimRight(line[..|line| - 1]) else line
  }

  /** The newline-terminated segments of a stream, in order, without their newlines. */
  function Segments(s: string): seq<string>
    decreases |s|
  {
    if '\n' !in s then [] else [Before(s, '\n')] + Segments(After(s, '\n'))
  }

  /** What follows the last newline. */
  function Remainder(s: string): (r: string)
    ensures '\n' !in r
    decreases |s|
  {
    if '\n' !in s then s else Remainder(After(s, '\n'))
  }

  function Terminated(segments: seq<string>): string {
    if segments == [] then "" else segments[0] + ['\n'] + Terminated(segments[1..])
  }

  /** The canonical lines of a stream: its segments, trimmed. */
  function Lines(s: string): seq<string>
    decreases |s|
  {
    if '\n' !in s then [] else [TrimRight(Before(s, '\n'))] + Lines(After(s, '\n'))
  }

  predicate NoNewlines(segments: seq<string>) {
    forall i | 0 <= i < |segments| :: '\n' !in segments[i]
  }

  lemma {:induction false} LinesAreSegments(s: string)
    ensures |Lines(s)| == |Segments(s)| && forall i | 0 <= i < |Lines(s)| :: Lines(s)[i] == TrimRight(Segments(s)[i])
    decreases |s|
  {
    if '\n' in s {
      LinesAreSegments(After(s, '\n'));
    }
  }

  lemma {:induction false} SegmentsRebuild(s: string)
    ensures Terminated(Segments(s)) + Remainder(s) == s && NoNewlines(Segments(s))
    decreases |s|
  {
    if '\n' in s {
      Joined(s, '\n');
      SegmentsRebuild(After(s, '\n'));
    }
  }

  lemma {:induction false} RebuiltSegments(segments: seq<string>, rest: string)
    requires NoNewlines(segments) && '\n' !in rest
    ensures Segments(Terminated(segments) + rest) == segments && Remainder(Terminated(segments) + rest) == rest
  {
    if segments == [] {
      assert Terminated(segments) + rest == rest;
    } else {
      var tail := Terminated(segments[1..]) + rest;
      assert Terminated(segments) + rest == segments[0] + ['\n'] + tail;
      CutAt(segments[0], '\n', tail);
      RebuiltSegments(segments[1..], rest);
    }
  }

  /** The only way to cut a stream into newline-free terminated segments and a newline-free rest. */
  lemma SegmentsUnique(s: string, segments: seq<string>, rest: string)
    requires NoNewlines(segments) && '\n' !in rest
    ensures s == Terminated(segments) + rest <==> segments == Segments(s) && rest == Remainder(s)
  {
    SegmentsRebuild(s);
    RebuiltSegments(segments, rest);
  }

  lemma TakeLine(s: string)
    requires '\n' in s
    ensures Lines(s) == [TrimRight(Before(s, '\n'))] + Lines(After(s, '\n'))
    ensures Remainder(s) == Remainder(After(s, '\n')) && |After(s, '\n')| < |s|
  {
  }

  lemma CutAppend(a: string, b: string)
    requires '\n' in a
    ensures '\n' in a + b && Before(a + b, '\n') == Before(a, '\n') && After(a + b, '\n') == After(a, '\n') + b
  {
    var first, rest := Before(a, '\n'), After(a, '\n');
    Joined(a, '\n');
    assert a + b == first + ['\n'] + (rest + b);
    CutAt(first, '\n', rest + b);
  }

  /** Cutting early or late makes no difference: the remainder carries all that matters. */
  lemma {:induction false} LinesAppend(a: string, b: string)
    ensures Lines(a + b) == Lines(a) + Lines(Remainder(a) + b)
    ensures Remainder(a + b) == Remainder(Remainder(a) + b)
    decreases |a|
  {
    if '\n' in a {
      CutAppend(a, b);
      LinesAppend(After(a, '\n'), b);
    }
  }

  function Concat(chunks: seq<string>): string {
    if chunks == [] then "" else chunks[0] + Concat(chunks[1..])
  }

  /** Successive writes, as `Write` is specified: the buffer left and the lines sent. */
  function WriteAll(buf: string, chunks: seq<string>): (string, seq<string>)
    decreases |chunks|
  {
    if chunks == [] then (buf, [])
    else
      var (after, lines) := WriteAll(Remainder(buf + chunks[0]), chunks[1..]);
      (after, Lines(buf + chunks[0]) + lines)
  }

  lemma Regroup<T>(a: seq<T>, b: seq<T>, c: seq<T>)
    ensures (a + b) + c == a + (b + c)
  {
  }

  /** The lines sent and the buffer left depend on the concatenation alone. */
  lemma {:induction false} ChunkIndependent(buf: string, chunks: seq<string>)
    requires '\n' !in buf
    ensures WriteAll(buf, chunks) == (Remainder(buf + Concat(chunks)), Lines(buf + Concat(chunks)))
    decreases |chunks|
  {
    if chunks == [] {
      assert buf + Concat(chunks) == buf;
    } else {
      var head, tail := buf + chunks[0], Concat(chunks[1..]);
      ChunkIndependent(Remainder(head), chunks[1..]);
      LinesAppend(head, tail);
      Regroup(buf, chunks[0], tail);
    }
  }

  // ---- The writer -----------------------------------------------------------

  /** The connection, shared by all commands. */
  class Connection {
    var sent: seq<Message>

    constructor ()
      ensures sent == []
    {
      sent := [];
    }

    method Send(m: Message)
      modifies this
      ensures sent == old(sent) + [m]
    {
      sent := sent + [m];
    }
  }

  function Outputs(id: string, lines: seq<string>): seq<Message> {
    seq(|lines|, i requires 0 <= i < |lines| => Output(id, lines[i]))
  }

  lemma OutputsAt(before: seq<Message>, id: string, lines: seq<string>)
    ensures var all := before + Outputs(id, lines);
      |all| == |before| + |lines| && forall k | 0 <= k < |lines| :: all[|before| + k] == Output(id, lines[k])
  {
  }

  lemma OutputsAppend(id: string, a: seq<string>, b: seq<string>)
    ensures Outputs(id, a + b) == Outputs(id, a) + Outputs(id, b)
  {
    assert Outputs(id, []) == [];
  }

  /** Inside Write: `done` is sent, `buf` is left of the stream `all`. */
  ghost predicate Owing(all: string, done: seq<string>, buf: string) {
    Lines(all) == done + Lines(buf) && Remainder(all) == Remainder(buf)
  }

  lemma OutputsSnoc(id: string, done: seq<string>, line: string)
    ensures Outputs(id, done + [line]) == Outputs(id, done) + [Output(id, line)]
  {
  }

  lemma Turn(all: string, done: seq<string>, buf: string)
    requires Owing(all, done, buf) && '\n' in buf
    ensures Owing(all, done + [TrimRight(Before(buf, '\n'))], After(buf, '\n')) && |After(buf, '\n')| < |buf|
  {
    TakeLine(buf);
    Shift(done, TrimRight(Before(buf, '\n')), Lines(After(buf, '\n')));
  }

  lemma Shift(done: seq<string>, line: string, rest: seq<string>)
    ensures done + ([line] + rest) == (done + [line]) + rest
  {
  }

  lemma NoTurn(all: string, done: seq<string>, buf: string)
    requires Owing(all, done, buf) && '\n' !in buf
    ensures done == Lines(all) && buf == Remainder(all)
  {
    assert done + [] == done;
  }

  class Writer {
    const id: string
    const conn: Connection
    var buf: string

    constructor (id: string, conn: Connection)
      ensures this.id == id && this.conn == conn && buf == ""
    {
      this.id, this.conn, buf := id, conn, "";
    }

    method Write(p: string) returns (n: nat)
      modifies this, conn
      ensures n == |p| && buf == Remainder(old(buf) + p)
      ensures conn.sent == old(conn.sent) + Outputs(id, Lines(old(buf) + p))
      ensures var lines := Lines(old(buf) + p);
        && |conn.sent| == |old(conn.sent)| + |lines|
        && forall k | 0 <= k < |lines| :: conn.sent[|old(conn.sent)| + k] == Output(id, lines[k])
    {
      buf := buf + p;
      ghost var all, before, done := buf, conn.sent, [];
      while '\n' in buf
        invariant Owing(all, done, buf)
        invariant conn.sent == before + Outputs(id, done)
        decreases |buf|
      {
        Turn(all, done, buf);
        var line := TrimRight(Before(buf, '\n'));
        OutputsSnoc(id, done, line);
        buf := After(buf, '\n');
        conn.Send(Output(id, line));
        done := done + [line];
      }
      NoTurn(all, done, buf);
      OutputsAt(before, id, done);
      n := |p|;
    }
  }

  // ---- Commands sharing the connection --------------------------------------

  datatype Command = Command(id: string, action: string, service: string)

  /** The error of buildArgs, or "" when there is a command line to run. */
  function ArgsError(c: Command): string {
    if c.action != "update" && c.action != "rollback" then "unknown action: " + c.action
    else if c.service == "" then "service is required for " + c.action
    else ""
  }

  function ExitCode(failure: Option<string>): nat {
    if failure.Some? then 1 else 0
  }

  function ExitError(failure: Option<string>): string {
    if failure.Some? then failure.value else ""
  }

  /** One handleCommand call on its own: `chunks` are what the process writes before it ends. */
  method HandleCommand(c: Command, conn: Connection, chunks: seq<string>, failure: Option<string>)
    modifies conn
    ensures conn.sent == old(conn.sent) +
      if c.action != "update" && c.action != "rollback" then [Done(c.id, 1, "unknown action: " + c.action)]
      else if c.service == "" then [Done(c.id, 1, "service is required for " + c.action)]
      else Outputs(c.id, Lines(Concat(chunks))) +
             [if failure.None? then Done(c.id, 0, "") else Done(c.id, 1, failure.value)]
  {
    if ArgsError(c) != "" {
      conn.Send(Done(c.id, 1, ArgsError(c)));
      return;
    }
    var w := new Writer(c.id, conn);
    WriteChunks(w, chunks);
    conn.Send(Done(c.id, ExitCode(failure), ExitError(failure)));
    Regroup(old(conn.sent), Outputs(c.id, Lines(Concat(chunks))),
            [Done(c.id, ExitCode(failure), ExitError(failure))]);
  }

  /** Successive writes to a new writer send the lines of their concatenation. */
  method WriteChunks(w: Writer, chunks: seq<string>)
    requires w.buf == ""
    modifies w, w.conn
    ensures w.conn.sent == old(w.conn.sent) + Outputs(w.id, Lines(Concat(chunks)))
    ensures w.buf == Remainder(Concat(chunks))
  {
    ghost var before, fed := w.conn.sent, "";
    StartFed(w.id, before, chunks);
    for i := 0 to |chunks|
      invariant Fed(before, w.conn.sent, w.id, w.buf, fed)
      invariant fed + Concat(chunks[i..]) == Concat(chunks)
    {
      FedMore(before, w.conn.sent, w.id, w.buf, fed, chunks[i]);
      var _ := w.Write(chunks[i]);
      ConcatNext(fed, chunks, i);
      fed := fed + chunks[i];
    }
    assert chunks[|chunks|..] == [] && fed + "" == fed;
  }

  /** A writer that has been given the stream `fed` since the connection held `before`. */
  ghost predicate Fed(before: seq<Message>, sent: seq<Message>, id: string, buf: string, fed: string) {
    sent == before + Outputs(id, Lines(fed)) && buf == Remainder(fed)
  }

  lemma StartFed(id: string, before: seq<Message>, chunks: seq<string>)
    ensures Fed(before, before, id, "", "") && "" + Concat(chunks[0..]) == Concat(chunks)
  {
    assert chunks[0..] == chunks && Outputs(id, []) == [] && before + [] == before;
  }

  lemma FedMore(before: seq<Message>, sent: seq<Message>, id: string, buf: string, fed: string, p: string)
    requires Fed(before, sent, id, buf, fed)
    ensures Fed(before, sent + Outputs(id, Lines(buf + p)), id, Remainder(buf + p), fed + p)
  {
    LinesAppend(fed, p);
    OutputsAppend(id, Lines(fed), Lines(buf + p));
    Regroup<Message>(before, Outputs(id, Lines(fed)), Outputs(id, Lines(buf + p)));
  }

  lemma ConcatNext(fed: string, chunks: seq<string>, i: nat)
    requires i < |chunks|
    ensures (fed + chunks[i]) + Concat(chunks[i + 1..]) == fed + Concat(chunks[i..])
  {
  }

  datatype Phase = Received | Running | Ended(exitCode: nat, error: string)

  /** One handleCommand goroutine; `fed` is everything its process has written so far. */
  datatype Handler = Handler(cmd: Command, phase: Phase, fed: string, buf: string)

  datatype Step =
    | Receive(c: Command)
    | Begin(h: nat)
    | Feed(h: nat, p: string)              // Write appends its argument to the buffer
    | Emit(h: nat)                         // one turn of Write's loop
    | Exit(h: nat, failure: Option<string>)  // the process ended, perhaps with an error

  datatype Agent = Agent(handlers: seq<Handler>, wire: seq<Message>)

  function Work(h: Handler, s: Step): (Handler, Option<Message>) {
    match s
    case Begin(_) =>
      if !h.phase.Received? then (h, None)
      else if ArgsError(h.cmd) != ""
      then (h.(phase := Ended(1, ArgsError(h.cmd))), Some(Done(h.cmd.id, 1, ArgsError(h.cmd))))
      else (h.(phase := Running), None)
    case Feed(_, p) =>
      if h.phase.Running? && '\n' !in h.buf then (h.(fed := h.fed + p, buf := h.buf + p), None) else (h, None)
    case Emit(_) =>
      if h.phase.Running? && '\n' in h.buf
      then (h.(buf := After(h.buf, '\n')), Some(Output(h.cmd.id, TrimRight(Before(h.buf, '\n')))))
      else (h, None)
    case Exit(_, failure) =>
      if h.phase.Running? && '\n' !in h.buf
      then (h.(phase := Ended(ExitCode(failure), ExitError(failure))),
            Some(Done(h.cmd.id, ExitCode(failure), ExitError(failure))))
      else (h, None)
    case _ => (h, None)
  }

  function Sent(wire: seq<Message>, out: Option<Message>): seq<Message> {
    if out.Some? then wire + [out.value] else wire
  }

  function Do(a: Agent, s: Step): Agent {
    if s.Receive? then
      if forall i | 0 <= i < |a.handlers| :: a.handlers[i].cmd.id != s.c.id
      then a.(handlers := a.handlers + [Handler(s.c, Received, "", "")]) else a
    else if s.h < |a.handlers| then
      var (h, out) := Work(a.handlers[s.h], s);
      Agent(a.handlers[s.h := h], Sent(a.wire, out))
    else a
  }

  function Run(a: Agent, steps: seq<Step>): Agent
    decreases |steps|
  {
    if steps == [] then a else Run(Do(a, steps[0]), steps[1..])
  }

  function ForId(wire: seq<Message>, id: string): seq<Message> {
    if wire == [] then []
    else ForId(wire[..|wire| - 1], id) + (if wire[|wire| - 1].id == id then [wire[|wire| - 1]] else [])
  }

  lemma ForIdSnoc(wire: seq<Message>, m: Message, id: string)
    ensures ForId(wire + [m], id) == ForId(wire, id) + (if m.id == id then [m] else [])
  {
    assert (wire + [m])[..|wire|] == wire;
  }

  /** All a finished command may have sent: its lines, then one Done; a refused one, Done alone. */
  ghost predicate Delivered(h: Handler, mine: seq<Message>) {
    match h.phase
    case Received => mine == [] && h.fed == h.buf == ""
    case Running => ArgsError(h.cmd) == "" && mine + Outputs(h.cmd.id, Lines(h.buf)) == Outputs(h.cmd.id, Lines(h.fed))
                    && Remainder(h.fed) == Remainder(h.buf)
    case Ended(code, error) =>
      && mine == Outputs(h.cmd.id, Lines(h.fed)) + [Done(h.cmd.id, code, error)]
      && (ArgsError(h.cmd) != "" ==> h.fed == "" && code == 1 && error == ArgsError(h.cmd))
      && (code == 1 || (code == 0 && error == ""))
  }

  ghost predicate Orderly(a: Agent) {
    && (forall i | 0 <= i < |a.handlers| :: Delivered(a.handlers[i], ForId(a.wire, a.handlers[i].cmd.id)))
    && (forall i, j | 0 <= i < j < |a.handlers| :: a.handlers[i].cmd.id != a.handlers[j].cmd.id)
    && (forall k | 0 <= k < |a.wire| :: Known(a.handlers, a.wire[k].id))
  }

  ghost predicate Known(handlers: seq<Handler>, id: string) {
    exists i :: 0 <= i < |handlers| && handlers[i].cmd.id == id
  }

  /** Write has returned: nothing is owed. */
  lemma NothingOwed(h: Handler, mine: seq<Message>)
    requires Delivered(h, mine) && h.phase.Running? && '\n' !in h.buf
    ensures mine == Outputs(h.cmd.id, Lines(h.fed)) && Remainder(h.fed) == h.buf
  {
    assert Outputs(h.cmd.id, []) == [];
  }

  lemma FeedDelivers(h: Handler, p: string, mine: seq<Message>)
    requires Delivered(h, mine) && h.phase.Running? && '\n' !in h.buf
    ensures Delivered(h.(fed := h.fed + p, buf := h.buf + p), mine)
  {
    NothingOwed(h, mine);
    LinesAppend(h.fed, p);
    OutputsAppend(h.cmd.id, Lines(h.fed), Lines(h.buf + p));
  }

  lemma EmitDelivers(h: Handler, mine: seq<Message>)
    requires Delivered(h, mine) && h.phase.Running? && '\n' in h.buf
    ensures Delivered(h.(buf := After(h.buf, '\n')), mine + [Output(h.cmd.id, TrimRight(Before(h.buf, '\n')))])
  {
    var id, line, rest := h.cmd.id, TrimRight(Before(h.buf, '\n')), Lines(After(h.buf, '\n'));
    TakeLine(h.buf);
    OutputsAppend(id, [line], rest);
    assert Outputs(id, [line]) == [Output(id, line)];
    assert mine + Outputs(id, [line] + rest) == (mine + [Output(id, line)]) + Outputs(id, rest);
  }

  /** A handler's own step keeps what it owes and what it has sent in balance. */
  lemma WorkDelivers(h: Handler, s: Step, mine: seq<Message>)
    requires Delivered(h, mine)
    ensures var (g, out) := Work(h, s);
      g.cmd == h.cmd && (out.Some? ==> out.value.id == h.cmd.id) && Delivered(g, Sent(mine, out))
  {
    if Work(h, s) != (h, None) {
      match s {
        case Begin(_) => assert Outputs(h.cmd.id, []) == [];
        case Feed(_, p) => FeedDelivers(h, p, mine);
        case Emit(_) => EmitDelivers(h, mine);
        case Exit(_, _) => NothingOwed(h, mine);
      }
    }
  }

  lemma {:induction false} NotMine(wire: seq<Message>, id: string)
    requires forall k | 0 <= k < |wire| :: wire[k].id != id
    ensures ForId(wire, id) == []
  {
    if wire != [] {
      NotMine(wire[..|wire| - 1], id);
    }
  }

  lemma StepOrderly(a: Agent, s: Step)
    requires Orderly(a)
    ensures Orderly(Do(a, s))
  {
    if s.Receive? {
      ReceiveOrderly(a, s);
    } else if s.h < |a.handlers| {
      WorkOrderly(a, s);
    }
  }

  lemma ReceiveOrderly(a: Agent, s: Step)
    requires Orderly(a) && s.Receive?
    ensures Orderly(Do(a, s))
  {
    var b := Do(a, s);
    if b != a {
      NotMine(a.wire, s.c.id);
      forall k | 0 <= k < |b.wire| ensures Known(b.handlers, b.wire[k].id) {
        var i :| 0 <= i < |a.handlers| && a.handlers[i].cmd.id == a.wire[k].id;
        assert b.handlers[i] == a.handlers[i];
      }
    }
  }

  /** Whatever one handler sends leaves the other commands' messages as they were. */
  lemma SentBy(wire: seq<Message>, out: Option<Message>, id: string)
    ensures ForId(Sent(wire, out), id)
         == if out.Some? && out.value.id == id then Sent(ForId(wire, id), out) else ForId(wire, id)
  {
    if out.Some? {
      ForIdSnoc(wire, out.value, id);
    }
  }

  lemma WorkOrderly(a: Agent, s: Step)
    requires Orderly(a) && !s.Receive? && s.h < |a.handlers|
    ensures Orderly(Do(a, s))
  {
    var me := a.handlers[s.h];
    var b, h, out := Do(a, s), Work(me, s).0, Work(me, s).1;
    WorkDelivers(me, s, ForId(a.wire, me.cmd.id));
    OneWorked(a, b, s.h, h, out);
  }

  lemma OneWorked(a: Agent, b: Agent, k: nat, h: Handler, out: Option<Message>)
    requires Orderly(a) && k < |a.handlers| && h.cmd == a.handlers[k].cmd
    requires out.Some? ==> out.value.id == h.cmd.id
    requires Delivered(h, Sent(ForId(a.wire, h.cmd.id), out))
    requires b == Agent(a.handlers[k := h], Sent(a.wire, out))
    ensures Orderly(b)
  {
    forall i | 0 <= i < |b.handlers| ensures Delivered(b.handlers[i], ForId(b.wire, b.handlers[i].cmd.id)) {
      SentBy(a.wire, out, a.handlers[i].cmd.id);
      if i != k {
        assert a.handlers[i].cmd.id != h.cmd.id;
        assert Delivered(a.handlers[i], ForId(a.wire, a.handlers[i].cmd.id));
      }
    }
    forall n | 0 <= n < |b.wire| ensures Known(b.handlers, b.wire[n].id) {
      SenderKnown(a.handlers, a.wire, k, h, out, n);
    }
  }

  lemma SenderKnown(handlers: seq<Handler>, wire: seq<Message>, k: nat, h: Handler, out: Option<Message>, n: nat)
    requires k < |handlers| && h.cmd == handlers[k].cmd && n < |Sent(wire, out)|
    requires out.Some? ==> out.value.id == h.cmd.id
    requires n < |wire| ==> Known(handlers, wire[n].id)
    ensures Known(handlers[k := h], Sent(wire, out)[n].id)
  {
    if n < |wire| {
      var i :| 0 <= i < |handlers| && handlers[i].cmd.id == wire[n].id;
      assert handlers[k := h][i].cmd.id == wire[n].id;
    } else {
      assert handlers[k := h][k] == h;
    }
  }

  lemma {:induction false} RunOrderly(a: Agent, steps: seq<Step>)
    requires Orderly(a)
    ensures Orderly(Run(a, steps))
    decreases |steps|
  {
    if steps != [] {
      StepOrderly(a, steps[0]);
      RunOrderly(Do(a, steps[0]), steps[1..]);
    }
  }

  /**
   Whatever else shares the connection, under every interleaving: an ended command's
   messages are the lines of all its process wrote, in order, and then exactly one Done
   (for a command without a valid command line, that Done alone); an unfinished one has
   sent no Done and a part of its lines from the start.
   */
  lemma EachCommandInOrder(steps: seq<Step>, h: nat)
    requires h < |Run(Agent([], []), steps).handlers|
    ensures var a := Run(Agent([], []), steps);
      var me := a.handlers[h];
      var mine := ForId(a.wire, me.cmd.id);
      && (me.phase.Ended? ==>
            mine == Outputs(me.cmd.id, Lines(me.fed)) + [Done(me.cmd.id, me.phase.exitCode, me.phase.error)])
      && (me.phase.Ended? && me.cmd.action != "update" && me.cmd.action != "rollback" ==>
            mine == [Done(me.cmd.id, 1, "unknown action: " + me.cmd.action)])
      && (me.phase.Ended? && (me.cmd.action == "update" || me.cmd.action == "rollback") && me.cmd.service == "" ==>
            mine == [Done(me.cmd.id, 1, "service is required for " + me.cmd.action)])
      && (me.phase.Ended? ==> me.phase.exitCode == 1 || (me.phase.exitCode == 0 && me.phase.error == ""))
      && (!me.phase.Ended? ==> mine <= Outputs(me.cmd.id, Lines(me.fed)))
  {
    assert Orderly(Agent([], []));
    RunOrderly(Agent([], []), steps);
    assert Lines("") == [];
  }
}
