/**
 How the Electrum client reads the outcome of a broadcast: which errors mean that the
 connection is gone, and which answers are acceptance, refusal or neither.

 JSON values are given by what the code looks at in them.
 */
module ElectrumErrors {
  datatype Option<+T> = None | Some(value: T)

  type Txid = nat

  datatype IoKind = WouldBlock | TimedOut | OtherKind

  /** The `code` and `message` members of a JSON object, where present and of the right type. */
  datatype Rpc = Rpc(code: Option<int>, message: Option<string>)

  /**
   The payload of a protocol error: a string, with the JSON that follows electrs'
   `sendrawtransaction RPC error: ` prefix in it, if it has that prefix and parses; or an object.
   */
  datatype Reply = Text(text: string, daemonError: Option<Rpc>) | Object(rpc: Rpc)

  datatype ElectrumError =
    | IoError(kind: IoKind)
    | SharedIoError(kind: IoKind)
    | Json(isEof: bool)
    | AllAttemptsErrored(errors: seq<ElectrumError>)
    | Protocol(reply: Reply)
    | OtherError

  datatype BroadcastResponse = Accepted | Rejected(message: string) | Unknown

  datatype Submission = Returned(txid: Txid) | Failed(error: ElectrumError) | TaskFailed | NoAnswer

  datatype BroadcastAttempt = Answered(response: BroadcastResponse) | ConnectionBroken | TimedOutAttempt

  // ---- Lost connections ----

  predicate Lost(kind: IoKind) {
    !kind.WouldBlock? && !kind.TimedOut?
  }

  predicate ConnectionIsBroken(e: ElectrumError) {
    match e
    case IoError(kind) => Lost(kind)
    case SharedIoError(kind) => Lost(kind)
    case Json(isEof) => isEof
    case AllAttemptsErrored(errors) => exists i :: 0 <= i < |errors| && ConnectionIsBroken(errors[i])
    case _ => false
  }

  /** The errors of the single attempts inside `e`, however deeply they are nested. */
  function Attempts(e: ElectrumError): (r: seq<ElectrumError>)
    decreases e, 1
  {
    if e.AllAttemptsErrored? then AttemptsOf(e.errors) else [e]
  }

  function AttemptsOf(errors: seq<ElectrumError>): (r: seq<ElectrumError>)
    decreases errors, 0
  {
    if errors == [] then [] else Attempts(errors[0]) + AttemptsOf(errors[1..])
  }

  predicate AttemptLostConnection(e: ElectrumError) {
    || (e.IoError? && e.kind.OtherKind?)
    || (e.SharedIoError? && e.kind.OtherKind?)
    || e == Json(true)
  }

  /** A broken connection is one that some attempt lost; timeouts alone never are. */
  lemma {:induction false} BrokenIffSomeAttemptLostIt(e: ElectrumError)
    ensures ConnectionIsBroken(e) <==> exists a :: a in Attempts(e) && AttemptLostConnection(a)
    decreases e, 1
  {
    match e {
      case AllAttemptsErrored(errors) => SomeBrokenIffSomeLost(errors);
      case _ =>
        assert Attempts(e) == [e] && [e][0] == e;
        assert forall a :: a in [e] <==> a == e;
        assert ConnectionIsBroken(e) <==> AttemptLostConnection(e);
    }
  }

  lemma {:induction false} SomeBrokenIffSomeLost(errors: seq<ElectrumError>)
    ensures (exists i :: 0 <= i < |errors| && ConnectionIsBroken(errors[i])) <==>
            (exists a :: a in AttemptsOf(errors) && AttemptLostConnection(a))
    decreases errors, 0
  {
    if errors != [] {
      var rest := errors[1..];
      BrokenIffSomeAttemptLostIt(errors[0]);
      SomeBrokenIffSomeLost(rest);
      assert forall a :: a in AttemptsOf(errors) <==> a in Attempts(errors[0]) || a in AttemptsOf(rest);
      if exists i :: 0 <= i < |errors| && ConnectionIsBroken(errors[i]) {
        var i :| 0 <= i < |errors| && ConnectionIsBroken(errors[i]);
        if i > 0 {
          assert rest[i - 1] == errors[i];
        }
      }
      if exists i :: 0 <= i < |rest| && ConnectionIsBroken(rest[i]) {
        var i :| 0 <= i < |rest| && ConnectionIsBroken(rest[i]);
        assert errors[i + 1] == rest[i];
      }
    }
  }

  // ---- Classification ----

  predicate IsSpace(c: char) {
    c == ' ' || c == '\t' || c == '\n' || c == '\r'
  }

  function TrimStart(s: string): (r: string) {
    if s != [] && IsSpace(s[0]) then TrimStart(s[1..]) else s
  }

  function TrimEnd(s: string): (r: string) {
    if s != [] && IsSpace(s[|s| - 1]) then TrimEnd(s[..|s| - 1]) else s
  }

  function Trim(s: string): (r: string) {
    TrimEnd(TrimStart(s))
  }

  predicate NonFinalRejection(code: int, message: string) {
    code == -26 && Trim(message) == "non-final"
  }

  function ClassifyReply(reply: Reply): (r: BroadcastResponse) {
    match reply
    case Text(text, daemonError) =>
      if daemonError.Some? && daemonError.value.code == Some(-26) && daemonError.value.message.Some?
         && NonFinalRejection(-26, daemonError.value.message.value)
      then Rejected(text)
      else Unknown
    case Object(Rpc(Some(code), Some(message))) =>
      if NonFinalRejection(code, message) || (code == 2 && Trim(message) == "non-final")
      then Rejected(message)
      else Unknown
    case Object(_) => Unknown
  }

  /** `broadcast_on`, from the moment its blocking call has ended or timed out. */
  function ReadSubmission(expected: Txid, submission: Submission): (r: BroadcastAttempt) {
    match submission
    case Returned(txid) => Answered(if txid == expected then Accepted else Unknown)
    case Failed(error) =>
      if ConnectionIsBroken(error) then ConnectionBroken
      else Answered(if error.Protocol? then ClassifyReply(error.reply) else Unknown)
    case TaskFailed => Answered(Unknown)
    case NoAnswer => TimedOutAttempt
  }
}
