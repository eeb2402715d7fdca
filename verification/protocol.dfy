/** The text protocol spoken over each WebSocket: the two command words a
    client may send, the lines the server sends back, and the admission
    rule on the `x-secret` header. */
module Protocol {
  import Text
  import opened Wrappers

  /** The commands the message handler acts on (index.js lines 91-97). */
  datatype Command = StartCmd | StopCmd

  /** The exact word that selects each command. */
  function CommandWord(c: Command): string
  {
    match c
    case StartCmd => "start"
    case StopCmd => "stop"
  }

  /** Exact, case-sensitive string comparison: only "start" and "stop" are
      commands; every other message is ignored. */
  function ParseCommand(msg: string): (r: Option<Command>)
    ensures r == Some(StartCmd) <==> msg == "start"
    ensures r == Some(StopCmd) <==> msg == "stop"
    ensures r.None? <==> msg != "start" && msg != "stop"
  {
    if msg == "start" then Some(StartCmd)
    else if msg == "stop" then Some(StopCmd)
    else None
  }

  /** `ParseCommand` recognises a message exactly when it is a command's
      word, and then recognises that command. */
  lemma ParseCommandInvertsWord(c: Command, msg: string)
    ensures ParseCommand(msg) == Some(c) <==> msg == CommandWord(c)
  {
  }

  const LogPrefix: string := "LOG: "
  const ErrorPrefix: string := "ERROR:"
  const StatusPrefix: string := "STATUS: "

  /** The broadcast for a chunk of the worker's standard output. */
  function StdoutLine(chunk: string): string
  {
    LogPrefix + Text.Trim(chunk)
  }

  /** The broadcast for a chunk of the worker's standard error; note that,
      unlike the other prefixes, this one has no space after the colon. */
  function StderrLine(chunk: string): string
  {
    ErrorPrefix + Text.Trim(chunk)
  }

  /** The reply to a command, and the broadcast when the worker closes. */
  function StatusLine(word: string): string
  {
    StatusPrefix + word
  }

  const Unauthorized: string := "ERROR: Unauthorized"
  const StatusStopped: string := StatusLine("stopped")

  /** How a receiving client can read any line the server sends. */
  datatype Line =
    | LogLine(body: string)
    | ErrorLine(body: string)
    | StatusReport(word: string)
    | Unrecognised

  /** The line a classification stands for. */
  function Render(l: Line): string
    requires !l.Unrecognised?
  {
    match l
    case LogLine(b) => LogPrefix + b
    case ErrorLine(b) => ErrorPrefix + b
    case StatusReport(w) => StatusPrefix + w
  }

  /** Reads a line by its prefix. The three prefixes start with different
      letters, so at most one applies. */
  function Classify(msg: string): (l: Line)
    ensures !l.Unrecognised? ==> Render(l) == msg
    ensures l.Unrecognised? <==>
      !(LogPrefix <= msg) && !(ErrorPrefix <= msg) && !(StatusPrefix <= msg)
  {
    if LogPrefix <= msg then LogLine(msg[|LogPrefix|..])
    else if ErrorPrefix <= msg then ErrorLine(msg[|ErrorPrefix|..])
    else if StatusPrefix <= msg then StatusReport(msg[|StatusPrefix|..])
    else Unrecognised
  }

  lemma ClassifyLog(body: string)
    ensures Classify(LogPrefix + body) == LogLine(body)
  {
    assert (LogPrefix + body)[|LogPrefix|..] == body;
  }

  lemma ClassifyError(body: string)
    ensures Classify(ErrorPrefix + body) == ErrorLine(body)
  {
    var m := ErrorPrefix + body;
    assert m[0] == 'E' && m[|ErrorPrefix|..] == body;
  }

  lemma ClassifyStatus(word: string)
    ensures Classify(StatusLine(word)) == StatusReport(word)
  {
    var m := StatusPrefix + word;
    assert m[0] == 'S' && m[|StatusPrefix|..] == word;
  }

  /** Every formatted output line reads back as the trimmed chunk it was
      made from. */
  lemma ClassifyFormatted(chunk: string)
    ensures Classify(StdoutLine(chunk)) == LogLine(Text.Trim(chunk))
    ensures Classify(StderrLine(chunk)) == ErrorLine(Text.Trim(chunk))
  {
    ClassifyLog(Text.Trim(chunk));
    ClassifyError(Text.Trim(chunk));
  }

  /** Forwarded output never reads as a status line. */
  lemma FormattedNotStatus(chunk: string)
    ensures !Classify(StdoutLine(chunk)).StatusReport?
    ensures !Classify(StderrLine(chunk)).StatusReport?
  {
    ClassifyFormatted(chunk);
  }

  /** A client cannot mistake the worker's standard error for the admission
      refusal: the refusal has a space after "ERROR:", and a trimmed chunk
      never starts with one. */
  lemma StderrNeverUnauthorized(chunk: string)
    ensures StderrLine(chunk) != Unauthorized
  {
    TightNeverUnauthorized(Text.Trim(chunk));
  }

  lemma TightNeverUnauthorized(t: string)
    requires Text.Tight(t)
    ensures ErrorPrefix + t != Unauthorized
  {
    if |t| == 13 {
      assert (ErrorPrefix + t)[6] == t[0] != ' ' == Unauthorized[6];
    }
  }

  /** The connection gate (index.js lines 76-82): a non-empty secret must be
      presented verbatim in the `x-secret` header; an empty secret admits
      everyone. */
  function Admit(secret: string, header: Option<string>): (ok: bool)
    ensures secret == "" ==> ok
    ensures secret != "" ==> (ok <==> header == Some(secret))
    ensures header.None? ==> (ok <==> secret == "")
  {
    if secret != "" then header == Some(secret) else true
  }
}
