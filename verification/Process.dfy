/** src/process.cc: collecting a child's output through one fixed buffer. */
module Process {
  const NUL: char := '\0'
  const BUFFER_SIZE: nat := 4096

  datatype ExitStatus = Exited(code: int) | Killed

  datatype ProcessResult = ProcessResult(exitCode: int, stdoutData: string, stderrData: string)

  /** The read end of a pipe: what the child has written and nobody has read yet. */
  class Pipe {
    var unread: string

    constructor (stream: string)
      ensures unread == stream
    {
      unread := stream;
    }
  }

  /** How many characters one fgets takes: through the first newline, at most `limit`. */
  function ChunkLength(s: string, limit: nat): (k: nat)
    ensures k <= |s| && k <= limit
    ensures s != "" && limit > 0 ==> k > 0
    ensures forall i | 0 <= i < k - 1 :: s[i] != '\n'
    ensures k < |s| && k < limit ==> k > 0 && s[k - 1] == '\n'
  {
    if s == "" || limit == 0 then 0
    else if s[0] == '\n' then 1
    else 1 + ChunkLength(s[1..], limit - 1)
  }

  /** The C string at the start of a buffer: everything before the first NUL. */
  function UpToNul(s: string): (r: string)
    ensures r <= s && NUL !in r
    ensures r == s || s[|r|] == NUL
  {
    if s == "" || s[0] == NUL then "" else [s[0]] + UpToNul(s[1..])
  }

  /** What the read loop accumulates. */
  function Captured(stream: string, size: nat): string
    requires size >= 2
    decreases |stream|
  {
    if stream == "" then ""
    else
      var k := ChunkLength(stream, size - 1);
      UpToNul(stream[..k]) + Captured(stream[k..], size)
  }

  /** fgets: fills the buffer with the next chunk and a terminating NUL. */
  method Fgets(buffer: array<char>, pipe: Pipe) returns (ok: bool)
    requires buffer.Length >= 2
    modifies buffer, pipe
    ensures ok == (old(pipe.unread) != "")
    ensures !ok ==> pipe.unread == ""
    ensures ok ==>
              var k := ChunkLength(old(pipe.unread), buffer.Length - 1);
              && buffer[..k] == old(pipe.unread)[..k] && buffer[k] == NUL
              && pipe.unread == old(pipe.unread)[k..]
  {
    if pipe.unread == "" {
      return false;
    }
    ghost var stream := pipe.unread;
    ghost var length := ChunkLength(stream, buffer.Length - 1);
    var k, done := 0, false;
    while !done && k < buffer.Length - 1 && pipe.unread != ""
      invariant 0 <= k <= |stream| && k < buffer.Length
      invariant pipe.unread == stream[k..] && buffer[..k] == stream[..k]
      invariant k <= length
      invariant done ==> k == length
      invariant !done ==> forall i | 0 <= i < k :: stream[i] != '\n'
      decreases !done, |pipe.unread|
    {
      var c := pipe.unread[0];
      pipe.unread := pipe.unread[1..];
      buffer[k] := c;
      k := k + 1;
      if c == '\n' {
        done := true;
      }
    }
    assert k == length;
    buffer[k] := NUL;
    return true;
  }

  /** The string a NUL-terminated buffer holds, as `result += buffer.data()` reads it. */
  method CString(buffer: array<char>, ghost k: nat) returns (s: string)
    requires k < buffer.Length && buffer[k] == NUL
    ensures s == UpToNul(buffer[..k])
  {
    ghost var text := buffer[..k];
    s := "";
    var i := 0;
    while buffer[i] != NUL
      invariant 0 <= i <= k
      invariant s == text[..i] && NUL !in s
      decreases k - i
    {
      s := s + [buffer[i]];
      i := i + 1;
    }
    UpToNulIs(text, i);
  }

  lemma UpToNulIs(text: string, i: nat)
    requires i <= |text| && NUL !in text[..i] && (i == |text| || text[i] == NUL)
    ensures UpToNul(text) == text[..i]
  {
  }

  lemma CapturedStep(sofar: string, stream: string, size: nat)
    requires size >= 2 && stream != ""
    ensures var k := ChunkLength(stream, size - 1);
            sofar + Captured(stream, size) == (sofar + UpToNul(stream[..k])) + Captured(stream[k..], size)
  {
  }

  /** Runs a command whose merged output is `stream`; `launched` says whether popen worked. */
  method RunProcess(stream: string, launched: bool, status: ExitStatus) returns (result: ProcessResult)
    ensures result.stdoutData == if launched then Captured(stream, BUFFER_SIZE) else ""
    ensures result.exitCode == if launched && status.Exited? then status.code else -1
    ensures result.stderrData == if launched then "" else "Failed to execute command"
  {
    result := ProcessResult(-1, "", "");
    if !launched {
      return result.(exitCode := -1, stderrData := "Failed to execute command");
    }
    var pipe := new Pipe(stream);
    var buffer := new char[BUFFER_SIZE];
    var ok := Fgets(buffer, pipe);
    ghost var before := stream;
    while ok
      invariant ok == (before != "")
      invariant ok ==>
                  var k := ChunkLength(before, BUFFER_SIZE - 1);
                  && buffer[..k] == before[..k] && buffer[k] == NUL && pipe.unread == before[k..]
      invariant result == ProcessResult(-1, result.stdoutData, "")
      invariant result.stdoutData + Captured(before, BUFFER_SIZE) == Captured(stream, BUFFER_SIZE)
      decreases |before|
    {
      ghost var k := ChunkLength(before, BUFFER_SIZE - 1);
      var text := CString(buffer, k);
      CapturedStep(result.stdoutData, before, BUFFER_SIZE);
      result := result.(stdoutData := result.stdoutData + text);
      before := before[k..];
      ok := Fgets(buffer, pipe);
    }
    if status.Exited? {
      result := result.(exitCode := status.code);
    }
  }

  /** Output capture: for every buffer size, the loop reassembles the whole stream exactly
      when the stream contains no NUL; otherwise characters are lost. */
  lemma {:induction false} CaptureIsIdentity(stream: string, size: nat)
    requires size >= 2
    ensures |Captured(stream, size)| <= |stream|
    ensures Captured(stream, size) == stream <==> NUL !in stream
    ensures NUL in stream ==> |Captured(stream, size)| < |stream|
    decreases |stream|
  {
    if stream != "" {
      var k := ChunkLength(stream, size - 1);
      var head, tail := stream[..k], stream[k..];
      assert stream == head + tail;
      CaptureIsIdentity(tail, size);
      ChunkIsIdentity(head);
      if NUL !in stream {
        assert NUL !in head && NUL !in tail;
      } else {
        assert NUL in head || NUL in tail;
      }
    }
  }

  lemma ChunkIsIdentity(s: string)
    ensures if NUL in s then |UpToNul(s)| < |s| else UpToNul(s) == s
  {
  }
}
