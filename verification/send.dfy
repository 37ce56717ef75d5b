/**
 * `send_or_eprint`: how a block's background thread hands one message to its
 * stream's bounded channel without blocking.
 *
 * The channel's answers to successive non-blocking sends are an input.
 */
module Send {

  /** The channel's answer to one non-blocking send. */
  datatype TrySend = Accepted | Full | Disconnected

  /**
   * How the hand-over ends: the channel took the message, the receiver was
   * gone and the message was reported and dropped, or every answer so far
   * was "full" and the sender is still retrying.
   */
  datatype Delivery<T> = Delivered(message: T) | Dropped(message: T) | Retrying(message: T)

  /** The answers `send_or_eprint` consumes: up to and including the first that is not "full". */
  function Consumed(answers: seq<TrySend>): (n: nat)
    ensures n <= |answers|
    decreases |answers|
  {
    if answers == [] then 0
    else if answers[0].Full? then 1 + Consumed(answers[1..])
    else 1
  }

  /**
   * Retry while the channel is full; stop on the first other answer. A send
   * that fails hands the message back, so the same message is retried and,
   * in the end, delivered or dropped unchanged.
   */
  method SendOrEprint<T>(message: T, answers: seq<TrySend>) returns (d: Delivery<T>, tries: nat)
    ensures d.message == message
    ensures tries <= |answers|
    ensures forall i :: 0 <= i < |answers| && i < tries - 1 ==> answers[i].Full?
    ensures d.Retrying? <==> tries == |answers| && (tries == 0 || answers[tries - 1].Full?)
    ensures d.Delivered? <==> tries > 0 && answers[tries - 1].Accepted?
    ensures d.Dropped? <==> tries > 0 && answers[tries - 1].Disconnected?
    ensures tries == Consumed(answers)
  {
    var pending := message;
    tries := 0;
    while tries < |answers|
      invariant tries <= |answers|
      invariant pending == message
      invariant forall i :: 0 <= i < tries ==> answers[i].Full?
      invariant Consumed(answers) == tries + Consumed(answers[tries..])
    {
      assert answers[tries..][1..] == answers[tries + 1..];
      var answer := answers[tries];
      tries := tries + 1;
      match answer {
        case Accepted =>
          return Delivered(pending), tries;
        case Disconnected =>
          return Dropped(pending), tries;
        case Full =>
      }
    }
    d := Retrying(pending);
  }
}
