/**
 * The shared status log. Every HeroService call appends to it; the messages
 * panel can clear it.
 */
module Messages {

  class MessageService {
    /** The log, oldest message first. */
    var messages: seq<string>

    constructor ()
      ensures messages == []
    {
      messages := [];
    }

    /** `add`: push the message onto the end of the log. */
    method Add(message: string)
      modifies this
      ensures messages == Apply(old(messages), Call.Add(message))
      ensures |messages| == |old(messages)| + 1 && messages[|messages| - 1] == message
      ensures messages[..|old(messages)|] == old(messages)
    {
      messages := messages + [message];
    }

    /** `clear`: replace the log by an empty one. */
    method Clear()
      modifies this
      ensures messages == Apply(old(messages), Call.Clear)
      ensures messages == []
    {
      messages := [];
    }
  }

  /** One call made on a MessageService. */
  datatype Call = Add(message: string) | Clear

  /** The log after one call, given the log before it. */
  function Apply(messages: seq<string>, call: Call): seq<string> {
    match call
    case Add(m) => messages + [m]
    case Clear => []
  }

  /** The log after a history of calls, applied first to last. */
  function Replay(messages: seq<string>, calls: seq<Call>): seq<string>
    decreases |calls|
  {
    if calls == [] then messages else Replay(Apply(messages, calls[0]), calls[1..])
  }

  /**
   * Reference reading of a history, from its end backwards: the messages of
   * the `add` calls made after the last `clear`, in call order.
   */
  function AddedSinceClear(calls: seq<Call>): seq<string>
    decreases |calls|
  {
    if calls == [] then []
    else match calls[|calls| - 1]
      case Clear => []
      case Add(m) => AddedSinceClear(calls[..|calls| - 1]) + [m]
  }

  /** Replaying one more call is applying it to the replayed log. */
  lemma {:induction false} ReplaySnoc(messages: seq<string>, calls: seq<Call>, call: Call)
    ensures Replay(messages, calls + [call]) == Apply(Replay(messages, calls), call)
    decreases |calls|
  {
    if calls != [] {
      assert (calls + [call])[1..] == calls[1..] + [call];
      ReplaySnoc(Apply(messages, calls[0]), calls[1..], call);
    }
  }

  /**
   * The log holds exactly the messages added since the last `clear`, in the
   * order of the `add` calls, after whatever it held before if there was no
   * `clear` at all.
   */
  lemma {:induction false} ReplayKeepsAddOrder(messages: seq<string>, calls: seq<Call>)
    ensures Replay(messages, calls) == (if Clear in calls then [] else messages) + AddedSinceClear(calls)
    decreases |calls|
  {
    if calls != [] {
      var front, last := calls[..|calls| - 1], calls[|calls| - 1];
      assert calls == front + [last];
      ReplaySnoc(messages, front, last);
      ReplayKeepsAddOrder(messages, front);
      assert (Clear in calls) == (Clear in front || last == Clear);
    }
  }

  /** Clearing twice leaves the same log as clearing once. */
  lemma ClearIdempotent(messages: seq<string>)
    ensures Replay(messages, [Clear, Clear]) == Replay(messages, [Clear]) == []
  {
  }
}
