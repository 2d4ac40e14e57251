/** The spoken-alert queue (angeleyes/utils/voice.py). Messages are appended
    to a FIFO queue; a call that finds no drain running drains the queue one
    message at a time, each through the `say` command. The speech command's
    outcome is supplied to the model; the ghost fields record what was
    enqueued, what was handed to `say`, and which utterances failed. */
module Voice {
  import opened Text

  /** How one `say` invocation ended. */
  datatype SpeechOutcome = Spoke | NonZeroExit(code: int) | SpeechRaised(error: string)

  const DefaultVoice := "Samantha"
  const DefaultRate := 200

  /** The replacement for one single quote: close the quote, emit a quote
      inside double quotes, reopen the quote. */
  const QuoteEscape := "'\"'\"'"

  /** `message.replace("'", "'\"'\"'")`. */
  function EscapeQuotes(message: string): (r: string)
    ensures |r| == |message| + 4 * QuoteCount(message)
  {
    if message == [] then []
    else (if message[0] == '\'' then QuoteEscape else [message[0]]) + EscapeQuotes(message[1..])
  }

  /** Reads an escaped message back: each escape sequence becomes one quote. */
  function UnescapeQuotes(s: string): string
    decreases |s|
  {
    if s == [] then []
    else if |s| >= 5 && s[..5] == QuoteEscape then "'" + UnescapeQuotes(s[5..])
    else [s[0]] + UnescapeQuotes(s[1..])
  }

  /** Number of single quotes in a message. */
  function QuoteCount(message: string): nat
  {
    if message == [] then 0 else (if message[0] == '\'' then 1 else 0) + QuoteCount(message[1..])
  }

  /** Escaping loses nothing: reading the escaped text back gives the message. */
  lemma {:induction false} EscapeRoundTrip(message: string)
    ensures UnescapeQuotes(EscapeQuotes(message)) == message
  {
    if message != [] {
      EscapeRoundTrip(message[1..]);
      var e := EscapeQuotes(message);
      var tail := EscapeQuotes(message[1..]);
      if message[0] == '\'' {
        assert e == QuoteEscape + tail;
        assert e[..5] == QuoteEscape && e[5..] == tail;
      } else {
        assert e == [message[0]] + tail;
        assert e[0] != '\'';
        assert e[1..] == tail;
      }
    }
  }

  /** A message without quotes is passed through unchanged. */
  lemma {:induction false} EscapeWithoutQuotes(message: string)
    requires '\'' !in message
    ensures EscapeQuotes(message) == message
  {
    if message != [] {
      assert message[0] != '\'';
      assert '\'' !in message[1..] by {
        forall k | 0 <= k < |message[1..]| ensures message[1..][k] != '\'' {
          assert message[1..][k] == message[k + 1];
        }
      }
      EscapeWithoutQuotes(message[1..]);
    }
  }

  /** The argument vector of one speech command: `say` with the voice, the
      rate and the message, each of which reads back from its argument. */
  function SayCommand(voice: string, rate: int, message: string): (argv: seq<string>)
    ensures |argv| == 6 && argv[0] == "say" && argv[1] == "-v" && argv[2] == voice && argv[3] == "-r"
    ensures rate >= 0 ==> (forall i :: 0 <= i < |argv[4]| ==> IsDigitChar(argv[4][i])) && DecimalValue(argv[4]) == rate
    ensures UnescapeQuotes(argv[5]) == message
  {
    EscapeRoundTrip(message);
    NatToDecimalRoundTrip(if rate >= 0 then rate else 0);
    ["say", "-v", voice, "-r", IntToDecimal(rate), EscapeQuotes(message)]
  }

  /** The concatenation of a sequence of message batches, in order. */
  function Flatten(batches: seq<seq<string>>): seq<string>
  {
    if batches == [] then [] else Flatten(batches[..|batches| - 1]) + batches[|batches| - 1]
  }

  lemma FlattenStep(batches: seq<seq<string>>, k: nat)
    requires k < |batches|
    ensures Flatten(batches[..k + 1]) == Flatten(batches[..k]) + batches[k]
  {
    assert batches[..k + 1][..k] == batches[..k];
  }

  class VoiceAlert {
    const voice: string
    const rate: int
    var queue: seq<string>
    var isSpeaking: bool
    /** Every message ever passed to `Speak`, in call order. */
    ghost var enqueued: seq<string>
    /** Every message handed to the speech command, in order. */
    ghost var spoken: seq<string>
    /** The argument vector of each speech command, in order. */
    ghost var commands: seq<seq<string>>
    /** Positions in `spoken` of the utterances whose command failed. */
    ghost var failed: seq<nat>

    /** Holds at every step: what was spoken, followed by what is still
        queued, is everything that was enqueued. */
    ghost predicate Consistent()
      reads this
    {
      && spoken + queue == enqueued
      && |commands| == |spoken|
      && (forall k :: 0 <= k < |spoken| ==> commands[k] == SayCommand(voice, rate, spoken[k]))
      && (forall k :: 0 <= k < |failed| ==> failed[k] < |spoken|)
    }

    /** Between calls: when no drain is running the queue is empty. */
    ghost predicate Valid()
      reads this
    {
      Consistent() && (!isSpeaking ==> queue == [])
    }

    constructor (voice: string, rate: int)
      ensures Valid() && this.voice == voice && this.rate == rate
      ensures queue == [] && !isSpeaking && enqueued == [] && spoken == [] && failed == []
    {
      this.voice := voice;
      this.rate := rate;
      queue := [];
      isSpeaking := false;
      enqueued := [];
      spoken := [];
      commands := [];
      failed := [];
    }

    /** `speak`: appends the message; if no drain is running, drains the queue
        before returning. While another caller's drain is running it only
        enqueues: that drain finds the message when it re-checks the queue.
        `arrivals[k]` are the messages other callers pass to `speak` while the
        k-th message of this drain is being spoken; `results(k)` is how the
        k-th utterance of this drain ends. */
    method Speak(message: string, arrivals: seq<seq<string>>, results: nat -> SpeechOutcome)
      returns (used: nat)
      requires Valid()
      modifies this
      decreases if isSpeaking then 0 else 3
      ensures Valid() && used <= |arrivals|
      ensures old(isSpeaking) ==>
        && isSpeaking && queue == old(queue) + [message]
        && enqueued == old(enqueued) + [message]
        && spoken == old(spoken) && commands == old(commands) && failed == old(failed)
      ensures !old(isSpeaking) ==>
        && !isSpeaking && queue == []
        && enqueued == old(enqueued) + [message] + Flatten(arrivals[..used])
        && spoken == old(spoken) + [message] + Flatten(arrivals[..used])
    {
      queue := queue + [message];
      enqueued := enqueued + [message];
      used := 0;
      if !isSpeaking {
        used := ProcessQueue(arrivals, results);
      }
    }

    /** `_process_queue`: marks the drain as running, speaks queued messages
        front first until the queue is empty, then marks it stopped. */
    method ProcessQueue(arrivals: seq<seq<string>>, results: nat -> SpeechOutcome)
      returns (used: nat)
      requires Consistent()
      modifies this
      decreases 2
      ensures Valid() && !isSpeaking && queue == [] && used <= |arrivals|
      ensures enqueued == old(enqueued) + Flatten(arrivals[..used])
      ensures spoken == old(spoken) + old(queue) + Flatten(arrivals[..used])
    {
      isSpeaking := true;
      used := 0;
      var utterance := 0;
      while queue != []
        invariant Valid() && isSpeaking && used <= |arrivals|
        invariant enqueued == old(enqueued) + Flatten(arrivals[..used])
        invariant spoken + queue == old(spoken) + old(queue) + Flatten(arrivals[..used])
        decreases |arrivals| - used, |queue|
      {
        SpeakNext(results(utterance));
        utterance := utterance + 1;
        if used < |arrivals| {
          Arrive(arrivals[used], results);
          FlattenStep(arrivals, used);
          used := used + 1;
        }
      }
      isSpeaking := false;
    }

    /** One pass of the drain: takes the front message off the queue and
        speaks it. */
    method SpeakNext(result: SpeechOutcome)
      requires Valid() && isSpeaking && queue != []
      modifies this
      ensures Valid() && isSpeaking
      ensures spoken == old(spoken) + [old(queue)[0]] && queue == old(queue)[1..]
      ensures enqueued == old(enqueued)
    {
      var message := queue[0];
      queue := queue[1..];
      SpeakMessage(message, result);
    }

    /** Other callers pass `batch` to `speak` while a drain is running:
        each call only enqueues. */
    method Arrive(batch: seq<string>, results: nat -> SpeechOutcome)
      requires Valid() && isSpeaking
      modifies this
      decreases 1
      ensures Valid() && isSpeaking
      ensures queue == old(queue) + batch && enqueued == old(enqueued) + batch
      ensures spoken == old(spoken)
    {
      var j := 0;
      while j < |batch|
        invariant 0 <= j <= |batch|
        invariant Valid() && isSpeaking
        invariant queue == old(queue) + batch[..j] && enqueued == old(enqueued) + batch[..j]
        invariant spoken == old(spoken)
      {
        var ignored := Speak(batch[j], [], results);
        assert batch[..j + 1] == batch[..j] + [batch[j]];
        j := j + 1;
      }
      assert batch[..j] == batch;
    }

    /** `_speak_message`: builds the escaped `say` command and runs it. A
        failure is only logged; the message counts as handed over either way. */
    method SpeakMessage(message: string, result: SpeechOutcome)
      requires |commands| == |spoken|
      modifies this`spoken, this`commands, this`failed
      ensures spoken == old(spoken) + [message]
      ensures commands == old(commands) + [SayCommand(voice, rate, message)]
      ensures failed == old(failed) + (if result.Spoke? then [] else [|old(spoken)|])
    {
      var escapedMessage := EscapeQuotes(message);
      var cmd := ["say", "-v", voice, "-r", IntToDecimal(rate), escapedMessage];
      commands := commands + [cmd];
      match result {
        case Spoke =>
        case NonZeroExit(_) =>
          failed := failed + [|spoken|];
        case SpeechRaised(_) =>
          failed := failed + [|spoken|];
      }
      spoken := spoken + [message];
    }
  }
}
