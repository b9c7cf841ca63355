/** The way of a command's output: captured in bounded buffers, classified, sent as a response, and
    printed by the client. */
module Output {
  import opened Text
  import opened Token

  /** os/exec hands over output in chunks that are never empty. */
  type Chunk = c: seq<byte> | c != [] witness [0]

  function Flatten(ws: seq<seq<byte>>): seq<byte> {
    if ws == [] then [] else Flatten(ws[..|ws| - 1]) + ws[|ws| - 1]
  }

  function Take(s: seq<byte>, n: int): seq<byte> {
    if n <= 0 then [] else if n < |s| then s[..n] else s
  }

  // ---- The bounded buffer ----

  /** Some write came when there was no room left at all, or had more bytes than there was room for. */
  ghost predicate Overflowed(ws: seq<seq<byte>>, limit: int) {
    exists i :: OverflowsAt(ws, limit, i)
  }

  predicate OverflowsAt(ws: seq<seq<byte>>, limit: int, i: int) {
    0 <= i < |ws| && (|Flatten(ws[..i])| >= limit || |Flatten(ws[..i])| + |ws[i]| > limit)
  }

  class BoundedBuffer {
    var buf: seq<byte>
    const limit: int
    var truncated: bool
    ghost var writes: seq<seq<byte>>

    /** The buffer holds the first limit bytes of everything written, however it was cut into writes. */
    ghost predicate Valid()
      reads this
    {
      buf == Take(Flatten(writes), limit) && (truncated <==> Overflowed(writes, limit))
    }

    constructor (limit: int)
      ensures Valid() && writes == [] && this.limit == limit
    {
      this.limit := limit;
      buf, truncated, writes := [], false, [];
    }

    method Write(p: seq<byte>) returns (n: nat)
      requires Valid()
      modifies this
      ensures Valid() && writes == old(writes) + [p]
      ensures n == |p|
    {
      var q := p;
      n := |p|;
      var remaining := limit - |buf|;
      WriteKeeps(writes, p, limit);
      writes := writes + [p];
      if remaining <= 0 {
        truncated := true;
        return;
      }
      if |q| > remaining {
        q := q[..remaining];
        truncated := true;
      }
      buf := buf + q;
    }

    method Bytes() returns (out: seq<byte>)
      requires Valid()
      ensures out == Take(Flatten(writes), limit)
    {
      out := buf;
    }
  }

  lemma TakeAppend(s: seq<byte>, p: seq<byte>, limit: int)
    ensures var b := Take(s, limit);
            Take(s + p, limit) ==
            (if limit - |b| <= 0 then b else if |p| > limit - |b| then b + p[..limit - |b|] else b + p)
  {
  }

  /** What one more write does to the first limit bytes and to the mark. */
  lemma WriteKeeps(ws: seq<seq<byte>>, p: seq<byte>, limit: int)
    ensures var b := Take(Flatten(ws), limit);
            var remaining := limit - |b|;
            && Take(Flatten(ws + [p]), limit) ==
               (if remaining <= 0 then b else if |p| > remaining then b + p[..remaining] else b + p)
            && (Overflowed(ws + [p], limit) <==> Overflowed(ws, limit) || remaining <= 0 || |p| > remaining)
  {
    assert (ws + [p])[..|ws|] == ws;
    TakeAppend(Flatten(ws), p, limit);
    OverflowedSnoc(ws, p, limit);
  }

  lemma OverflowedSnoc(ws: seq<seq<byte>>, p: seq<byte>, limit: int)
    ensures Overflowed(ws + [p], limit) <==>
            Overflowed(ws, limit) || |Flatten(ws)| >= limit || |Flatten(ws)| + |p| > limit
  {
    var all := ws + [p];
    forall i | 0 <= i < |ws| ensures OverflowsAt(all, limit, i) <==> OverflowsAt(ws, limit, i) {
      OverflowsBefore(ws, p, limit, i);
    }
    assert all[..|ws|] == ws;
    assert OverflowsAt(all, limit, |ws|) <==> |Flatten(ws)| >= limit || |Flatten(ws)| + |p| > limit;
  }

  lemma OverflowsBefore(ws: seq<seq<byte>>, p: seq<byte>, limit: int, i: nat)
    requires i < |ws|
    ensures OverflowsAt(ws + [p], limit, i) <==> OverflowsAt(ws, limit, i)
  {
    assert (ws + [p])[..i] == ws[..i];
  }

  /** The buffer is marked truncated exactly when the total exceeds the limit or the last write came
      when the limit had been reached: an empty write to a full buffer marks it although nothing is lost. */
  lemma {:induction false} OverflowMeaning(ws: seq<seq<byte>>, limit: int)
    ensures Overflowed(ws, limit) <==>
            ws != [] && (|Flatten(ws)| > limit || |Flatten(ws[..|ws| - 1])| >= limit)
    decreases |ws|
  {
    if ws != [] {
      var n := |ws| - 1;
      OverflowMeaning(ws[..n], limit);
      assert ws == ws[..n] + [ws[n]];
      OverflowedSnoc(ws[..n], ws[n], limit);
      if n > 0 {
        var m := ws[..n];
        assert |Flatten(m)| == |Flatten(m[..n - 1])| + |m[n - 1]|;
      }
    }
  }

  /** With non-empty writes and a positive limit the mark says exactly that bytes were lost. */
  lemma OverflowIsLoss(ws: seq<Chunk>, limit: int)
    requires limit > 0
    ensures Overflowed(ws, limit) <==> |Flatten(ws)| > limit
    ensures Overflowed(ws, limit) <==> Take(Flatten(ws), limit) != Flatten(ws)
  {
    OverflowMeaning(ws, limit);
    if ws != [] {
      assert |Flatten(ws)| == |Flatten(ws[..|ws| - 1])| + |ws[|ws| - 1]|;
    }
  }

  /** An empty write to a full buffer sets the mark without losing a byte. */
  lemma EmptyWriteMarks()
    ensures Overflowed([[7], []], 1) && Take(Flatten([[7], []]), 1) == Flatten([[7], []])
  {
    var ws: seq<seq<byte>> := [[7], []];
    assert ws[..1] == [[7]] && ws[..1][..0] == [];
    assert Flatten(ws[..1]) == [7];
    assert Flatten(ws) == [7];
    assert OverflowsAt(ws, 1, 1);
  }

  // ---- Running the command ----

  const DEFAULT_LIMIT := 0x40_0000

  type Failure = n: int | n != 0 witness 1

  datatype Ending = Success | ExitStatus(code: Failure) | NotRun
  datatype Interruption = NotInterrupted | DeadlinePassed | ClientGone

  /** What the environment makes of a started command. */
  datatype Child = Child(stdout: seq<Chunk>, stderr: seq<Chunk>, ending: Ending, interruption: Interruption)

  datatype Result = Result(stdout: seq<byte>, stderr: seq<byte>, exitCode: int)

  datatype RunError = NoBinary | OutputLimit | DeadlineExceeded | Canceled | Failed


  function Normalised(outputLimit: int): int {
    if outputLimit <= 0 then DEFAULT_LIMIT else outputLimit
  }

  method CopyAll(buffer: BoundedBuffer, chunks: seq<Chunk>)
    requires buffer.Valid() && buffer.writes == []
    modifies buffer
    ensures buffer.Valid() && buffer.writes == chunks
  {
    for i := 0 to |chunks|
      invariant buffer.Valid() && buffer.writes == chunks[..i]
    {
      var _ := buffer.Write(chunks[i]);
      assert chunks[..i + 1] == chunks[..i] + [chunks[i]];
    }
    assert chunks[..|chunks|] == chunks;
  }

  /** CommandRunner.Run, given what the command does. */
  method RunCommand(binary: string, outputLimit: int, contextqRoot: string, args: seq<string>, child: Child)
    returns (commandArgs: seq<string>, result: Result, err: Option<RunError>)
    ensures binary == "" <==> err == Some(NoBinary)
    ensures binary != "" ==> commandArgs == ["--json", "--root", contextqRoot] + args
    ensures binary != "" ==>
              && result.stdout == Take(Flatten(child.stdout), Normalised(outputLimit))
              && result.stderr == Take(Flatten(child.stderr), Normalised(outputLimit))
    ensures binary != "" ==>
              (err == Some(OutputLimit) <==>
                 |Flatten(child.stdout)| > Normalised(outputLimit) || |Flatten(child.stderr)| > Normalised(outputLimit))
    ensures binary != "" && err != Some(OutputLimit) ==>
              && result.stdout == Flatten(child.stdout) && result.stderr == Flatten(child.stderr)
              && (err == Some(DeadlineExceeded) <==> child.interruption == DeadlinePassed)
              && (err == Some(Canceled) <==> child.interruption == ClientGone)
              && (err == Some(Failed) <==> child.interruption == NotInterrupted && child.ending == NotRun)
    ensures err == None ==> result.exitCode == if child.ending.ExitStatus? then child.ending.code else 0
    ensures binary != "" && outputLimit <= 0 ==>
              (err == Some(OutputLimit) <==> |Flatten(child.stdout)| > 4194304 || |Flatten(child.stderr)| > 4194304)
    ensures binary != "" && outputLimit > 0 ==>
              (err == Some(OutputLimit) <==> |Flatten(child.stdout)| > outputLimit || |Flatten(child.stderr)| > outputLimit)
  {
    commandArgs, result, err := [], Result([], [], 0), None;
    if binary == "" {
      err := Some(NoBinary);
      return;
    }
    var limit := if outputLimit <= 0 then DEFAULT_LIMIT else outputLimit;
    commandArgs := commandArgs + ["--json", "--root", contextqRoot];
    commandArgs := commandArgs + args;
    var stdout := new BoundedBuffer(limit);
    var stderr := new BoundedBuffer(limit);
    CopyAll(stdout, child.stdout);
    CopyAll(stderr, child.stderr);
    OverflowIsLoss(child.stdout, limit);
    OverflowIsLoss(child.stderr, limit);
    var out := stdout.Bytes();
    var errOut := stderr.Bytes();
    result := Result(out, errOut, 0);
    if stdout.truncated || stderr.truncated {
      err := Some(OutputLimit);
      return;
    }
    if child.interruption != NotInterrupted {
      err := Some(if child.interruption == DeadlinePassed then DeadlineExceeded else Canceled);
      return;
    }
    match child.ending
    case Success =>
    case ExitStatus(code) => result := result.(exitCode := code);
    case NotRun => err := Some(Failed);
  }
}
