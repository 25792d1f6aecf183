/**
 job.go: one deploy's observable handle. Log lines are kept up to a bound and forwarded,
 without blocking, to a bounded channel that is closed exactly once, on the first terminal
 status. Each call holds the job's lock throughout and is taken as atomic.
 */
module DeployJobs {

  const MAX_LOG_LINES := 500
  const CHANNEL_CAPACITY := 256

  datatype Status = Queued | Running | Success | Failed {
    predicate Terminal() {
      Success? || Failed?
    }
  }

  datatype LogLine = LogLine(seqNo: nat, source: string, text: string)

  /**
   A job's state and its past. `buffer` is the channel's content, `sent` every line that was
   ever sent, `read` what the reader took, `written` every line ever appended.
   */
  datatype Job = Job(
    status: Status, ended: bool, chDone: bool, seqNo: nat, logs: seq<LogLine>,
    buffer: seq<LogLine>, sent: seq<LogLine>, read: seq<LogLine>, written: seq<LogLine>)
  {
    function AppendLog(source: string, text: string): Job {
      var line := LogLine(seqNo + 1, source, text);
      var kept := if |logs| < MAX_LOG_LINES then logs + [line] else logs;
      var base := this.(seqNo := seqNo + 1, logs := kept, written := written + [line]);
      if Sends() then base.(buffer := buffer + [line], sent := sent + [line]) else base
    }

    /** Whether a line appended now reaches the channel. */
    predicate Sends() {
      !chDone && |buffer| < CHANNEL_CAPACITY
    }

    function Transition(to: Status): Job {
      if status.Terminal() then this
      else if to.Terminal() then this.(status := to, ended := true, chDone := true)
      else this.(status := to)
    }

    function Receive(): Job {
      if buffer == [] then this else this.(buffer := buffer[1..], read := read + [buffer[0]])
    }

    ghost predicate Ok() {
      && (status.Terminal() <==> ended) && (ended <==> chDone)
      && seqNo == |written| && (forall i | 0 <= i < |written| :: written[i].seqNo == i + 1)
      && |logs| == (if seqNo < MAX_LOG_LINES then seqNo else MAX_LOG_LINES) && logs == written[..|logs|]
      && |buffer| <= CHANNEL_CAPACITY && sent == read + buffer
      && Rising(sent) && (forall l | l in sent :: l in written && l.seqNo <= seqNo)
    }
  }

  predicate Rising(lines: seq<LogLine>) {
    forall i, j | 0 <= i < j < |lines| :: lines[i].seqNo < lines[j].seqNo
  }

  function NewJob(): Job {
    Job(Queued, false, false, 0, [], [], [], [], [])
  }

  datatype Op = AppendLog(source: string, text: string) | Transition(to: Status) | Receive

  function Apply(j: Job, op: Op): Job {
    match op
    case AppendLog(source, text) => j.AppendLog(source, text)
    case Transition(to) => j.Transition(to)
    case Receive => j.Receive()
  }

  function Run(j: Job, ops: seq<Op>): Job
    decreases |ops|
  {
    if ops == [] then j else Run(Apply(j, ops[0]), ops[1..])
  }

  lemma AppendOk(j: Job, source: string, text: string)
    requires j.Ok()
    ensures j.AppendLog(source, text).Ok()
  {
    var k := j.AppendLog(source, text);
    assert k.written[|j.written|].seqNo == j.seqNo + 1;
    if j.Sends() {
      assert k.sent == k.read + k.buffer;
      assert k.written[|j.written|] in k.written;
    }
  }

  lemma ReceiveOk(j: Job)
    requires j.Ok()
    ensures j.Receive().Ok()
  {
    assert j.Receive().sent == j.Receive().read + j.Receive().buffer;
  }

  lemma StepOk(j: Job, op: Op)
    requires j.Ok()
    ensures Apply(j, op).Ok()
  {
    match op
    case AppendLog(source, text) => AppendOk(j, source, text);
    case Transition(to) =>
    case Receive => ReceiveOk(j);
  }

  /**
   Over every run of atomic calls: line i carries number i+1 and the kept log is the first
   500 lines; a terminal status, a recorded end and a closed channel are one and the same;
   sent lines rise strictly in number and are what was read followed by what is buffered.
   */
  lemma {:induction false} RunOk(j: Job, ops: seq<Op>)
    requires j.Ok()
    ensures Run(j, ops).Ok()
    ensures var k := Run(j, ops);
      && (k.ended <==> k.chDone) && (k.chDone <==> k.status == Success || k.status == Failed)
      && k.seqNo == |k.written| && (forall i | 0 <= i < |k.written| :: k.written[i].seqNo == i + 1)
      && k.logs == k.written[..if k.seqNo < 500 then k.seqNo else 500]
      && |k.buffer| <= 256 && k.sent == k.read + k.buffer && (forall l | l in k.sent :: l in k.written)
      && (forall m, n | 0 <= m < n < |k.sent| :: k.sent[m].seqNo < k.sent[n].seqNo)
    decreases |ops|
  {
    if ops != [] {
      StepOk(j, ops[0]);
      RunOk(Apply(j, ops[0]), ops[1..]);
    }
  }

  /** Terminal is final: no later call changes the status or sends another line. */
  lemma {:induction false} TerminalStays(j: Job, ops: seq<Op>)
    requires j.Ok() && j.status.Terminal()
    ensures Run(j, ops).status == j.status && Run(j, ops).sent == j.sent && Run(j, ops).chDone && Run(j, ops).ended
    decreases |ops|
  {
    if ops != [] {
      StepOk(j, ops[0]);
      TerminalStays(Apply(j, ops[0]), ops[1..]);
    }
  }

  /** The numbers of lines appended during a run while the channel was full or closed. */
  function Skipped(j: Job, ops: seq<Op>): set<nat>
    decreases |ops|
  {
    if ops == [] then {}
    else (if ops[0].AppendLog? && !j.Sends() then {j.seqNo + 1} else {}) + Skipped(Apply(j, ops[0]), ops[1..])
  }

  function Numbers(lines: seq<LogLine>): set<nat> {
    set l | l in lines :: l.seqNo
  }

  lemma NumbersAppend(lines: seq<LogLine>, l: LogLine)
    ensures Numbers(lines + [l]) == Numbers(lines) + {l.seqNo}
  {
    assert l in lines + [l];
    forall x | x in Numbers(lines) ensures x in Numbers(lines + [l]) {
      var m :| m in lines && m.seqNo == x;
      assert m in lines + [l];
    }
  }

  lemma StepNumbers(j: Job, op: Op)
    requires j.Ok()
    ensures var k := Apply(j, op);
      && k.seqNo == j.seqNo + (if op.AppendLog? then 1 else 0)
      && Numbers(k.sent) == Numbers(j.sent) + (if op.AppendLog? && j.Sends() then {j.seqNo + 1} else {})
    ensures forall x | x in Numbers(j.sent) :: x <= j.seqNo
  {
    if op.AppendLog? {
      NumbersAppend(j.sent, LogLine(j.seqNo + 1, op.source, op.text));
    }
  }

  /** Every line was either sent or skipped, never both. */
  lemma {:induction false} SentOrSkipped(j: Job, ops: seq<Op>)
    requires j.Ok()
    ensures forall x :: j.seqNo < x <= Run(j, ops).seqNo ==> (x in Skipped(j, ops) <==> x !in Numbers(Run(j, ops).sent))
    ensures forall x | x in Skipped(j, ops) :: j.seqNo < x <= Run(j, ops).seqNo
    ensures forall x | x <= j.seqNo :: x in Numbers(Run(j, ops).sent) <==> x in Numbers(j.sent)
    ensures j.seqNo <= Run(j, ops).seqNo
    decreases |ops|
  {
    if ops != [] {
      var k := Apply(j, ops[0]);
      StepOk(j, ops[0]);
      StepNumbers(j, ops[0]);
      SentOrSkipped(k, ops[1..]);
    }
  }

  /**
   The log viewer replays `Logs()` at some moment of the run and, as the only reader, then
   drains the channel until it is closed and empty. It has then been shown every line, save
   exactly those outside the replay that were skipped because the channel was full or the
   job over when they were appended.
   */
  lemma ReplayThenDrain(before: seq<Op>, after: seq<Op>, x: nat)
    requires var end := Run(Run(NewJob(), before), after);
      end.chDone && end.buffer == [] && 1 <= x <= end.seqNo
    ensures var at := Run(NewJob(), before);
      var end := Run(at, after);
      var shown := Numbers(at.logs) + Numbers(end.read);
      x !in shown <==> x !in Numbers(at.logs) && x in Skipped(NewJob(), before + after)
  {
    var at := Run(NewJob(), before);
    RunConcat(NewJob(), before, after);
    assert NewJob().Ok();
    RunOk(NewJob(), before);
    RunOk(at, after);
    SentOrSkipped(NewJob(), before + after);
    var end := Run(at, after);
    assert end.read + end.buffer == end.read;
  }

  lemma {:induction false} RunConcat(j: Job, a: seq<Op>, b: seq<Op>)
    ensures Run(j, a + b) == Run(Run(j, a), b)
    decreases |a|
  {
    if a == [] {
      assert a + b == b;
    } else {
      assert (a + b)[1..] == a[1..] + b;
      RunConcat(Apply(j, a[0]), a[1..], b);
    }
  }

  // ---- The mutable job ------------------------------------------------------

  class DeployJob {
    const id: string
    const containerName: string
    const image: string
    const triggerSource: string
    var status: Status
    var ended: bool
    var logs: seq<LogLine>
    var seqNo: nat
    var chDone: bool
    var logCh: seq<LogLine>       // the channel's buffer
    var closes: nat               // how often the channel was closed; a second close would panic
    ghost var sent: seq<LogLine>
    ghost var read: seq<LogLine>
    ghost var written: seq<LogLine>

    ghost function View(): Job
      reads this
    {
      Job(status, ended, chDone, seqNo, logs, logCh, sent, read, written)
    }

    ghost predicate Valid()
      reads this
    {
      View().Ok() && closes == (if chDone then 1 else 0)
    }

    /** Ids come from a random source and are a parameter here. */
    constructor (id: string, containerName: string, image: string, triggerSource: string)
      ensures Valid() && View() == NewJob()
      ensures this.id == id && this.containerName == containerName && this.image == image
      ensures this.triggerSource == triggerSource
    {
      this.id, this.containerName, this.image, this.triggerSource := id, containerName, image, triggerSource;
      status, ended, logs, seqNo, chDone, logCh, closes := Queued, false, [], 0, false, [], 0;
      sent, read, written := [], [], [];
    }

    method AppendLog(source: string, text: string)
      requires Valid()
      modifies this
      ensures Valid() && View() == old(View()).AppendLog(source, text)
      ensures var line := LogLine(old(seqNo) + 1, source, text);
        && seqNo == old(seqNo) + 1 && written == old(written) + [line]
        && logs == (if |old(logs)| < 500 then old(logs) + [line] else old(logs))
        && (!old(chDone) && |old(logCh)| < 256 ==> logCh == old(logCh) + [line] && sent == old(sent) + [line])
        && (old(chDone) || |old(logCh)| == 256 ==> logCh == old(logCh) && sent == old(sent))
      ensures unchanged(`status, `ended, `chDone, `closes, `read)
    {
      StepOk(View(), Op.AppendLog(source, text));
      seqNo := seqNo + 1;
      var line := LogLine(seqNo, source, text);
      written := written + [line];
      if |logs| < MAX_LOG_LINES {
        logs := logs + [line];
      }
      if !chDone {
        if |logCh| < CHANNEL_CAPACITY {
          assert closes == 0;  // never a send on a closed channel
          logCh, sent := logCh + [line], sent + [line];
        }
      }
    }

    method Transition(to: Status)
      requires Valid()
      modifies this
      ensures Valid() && View() == old(View()).Transition(to)
      ensures status == if old(status) == Success || old(status) == Failed then old(status) else to
      ensures ended == chDone == (status == Success || status == Failed)
      ensures unchanged(`logs, `seqNo, `logCh, `sent, `read, `written)
    {
      StepOk(View(), Op.Transition(to));
      if status == Success || status == Failed {
        return;
      }
      status := to;
      if to == Success || to == Failed {
        ended, chDone := true, true;
        closes := closes + 1;
      }
    }

    /** The reader's receive from a non-empty channel. */
    method Receive() returns (line: LogLine)
      requires Valid() && logCh != []
      modifies this
      ensures Valid() && line == old(logCh[0]) && View() == old(View()).Receive()
      ensures logCh == old(logCh)[1..] && read == old(read) + [line]
    {
      StepOk(View(), Op.Receive);
      line := logCh[0];
      logCh, read := logCh[1..], read + [line];
    }

    method Logs() returns (out: seq<LogLine>)
      requires Valid()
      ensures out == logs && out == written[..|out|]
      ensures |out| == if |written| < 500 then |written| else 500
    {
      out := logs;
    }

    /** Consistent values of the whole job at one moment; times are left out. */
    method Snap() returns (s: Snapshot)
      requires Valid()
      ensures s == Snapshot(id, containerName, image, triggerSource, status, ended, |logs|)
      ensures s.over <==> s.status == Success || s.status == Failed
      ensures s.logCount == if |written| < 500 then |written| else 500
    {
      s := Snapshot(id, containerName, image, triggerSource, status, ended, |logs|);
    }
  }

  datatype Snapshot = Snapshot(id: string, containerName: string, image: string, triggerSource: string,
                               status: Status, over: bool, logCount: nat)
}
