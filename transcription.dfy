// The transcript side of server-message handling: the two transcription
// accumulators, the flush on turn completion, and the discard on
// interruption, as a pure step on a Transcript value. The controller
// class is proved to perform exactly this step on its fields.
module Transcription {
  import opened Types
  import opened Text

  /** The input (user) and output (model) accumulators and the message log. */
  datatype Transcript = Transcript(input: string, output: string, log: seq<FeedbackMessage>)

  /** A flushed user turn: id is the clock reading in decimal followed by 'u'. */
  function UserMessage(text: string, clock: nat): (m: FeedbackMessage)
    ensures m.sender == User && m.text == text && m.timestamp == clock
    ensures |m.id| >= 2 && m.id[|m.id| - 1] == 'u'
    ensures var digits := m.id[..|m.id| - 1]; IsDigits(digits) && DecimalValue(digits) == clock
  {
    var digits := DecimalString(clock);
    DecimalRoundTrip(clock);
    assert (digits + "u")[..|digits|] == digits;
    FeedbackMessage(digits + "u", text, User, clock)
  }

  /** A flushed model turn: id is the clock reading in decimal followed by 'm'. */
  function ModelMessage(text: string, clock: nat): (m: FeedbackMessage)
    ensures m.sender == Model && m.text == text && m.timestamp == clock
    ensures |m.id| >= 2 && m.id[|m.id| - 1] == 'm'
    ensures var digits := m.id[..|m.id| - 1]; IsDigits(digits) && DecimalValue(digits) == clock
  {
    var digits := DecimalString(clock);
    DecimalRoundTrip(clock);
    assert (digits + "m")[..|digits|] == digits;
    FeedbackMessage(digits + "m", text, Model, clock)
  }

  /** Appends each direction's fragment to its own accumulator. */
  function AddFragments(t: Transcript, msg: ServerMessage): (r: Transcript)
    ensures r.log == t.log && t.input <= r.input && t.output <= r.output
  {
    t.(output := t.output + Fragment(msg.outputText), input := t.input + Fragment(msg.inputText))
  }

  /** Turn completion: user accumulator first, then model accumulator. */
  function FlushTurn(t: Transcript, clock: nat): (r: Transcript)
    ensures t.log <= r.log && |r.log| <= |t.log| + 2
    ensures IsBlank(r.input) && IsBlank(r.output)
  {
    EmptyIsBlank();
    var u := if !IsBlank(t.input) then t.(log := t.log + [UserMessage(t.input, clock)], input := "") else t;
    if !IsBlank(u.output) then u.(log := u.log + [ModelMessage(u.output, clock)], output := "") else u
  }

  /** The transcript effect of one server message, in the handler's order. */
  function Step(t: Transcript, msg: ServerMessage, clock: nat): (r: Transcript)
    ensures t.log <= r.log
  {
    var a := AddFragments(t, msg);
    var f := if msg.turnComplete then FlushTurn(a, clock) else a;
    if msg.interrupted then f.(output := "") else f
  }

  /** The message flushes a model turn that reads as praise of the user's form. */
  predicate Praised(t: Transcript, msg: ServerMessage)
  {
    var a := AddFragments(t, msg);
    msg.turnComplete && !IsBlank(a.output) && IsPraise(a.output)
  }

  /** Every logged message carries non-blank text. */
  predicate NonBlankLog(log: seq<FeedbackMessage>)
  {
    forall i :: 0 <= i < |log| ==> !IsBlank(log[i].text)
  }

  datatype Inbound = Inbound(msg: ServerMessage, clock: nat)

  /** The transcript after a sequence of server messages. */
  function Run(t: Transcript, events: seq<Inbound>): Transcript
  {
    if events == [] then t
    else
      var last := events[|events| - 1];
      Step(Run(t, events[..|events| - 1]), last.msg, last.clock)
  }

  /** Everything the user side of the stream said, fragment by fragment. */
  function InputFragments(events: seq<Inbound>): string
  {
    if events == [] then ""
    else InputFragments(events[..|events| - 1]) + Fragment(events[|events| - 1].msg.inputText)
  }

  function OutputFragments(events: seq<Inbound>): string
  {
    if events == [] then ""
    else OutputFragments(events[..|events| - 1]) + Fragment(events[|events| - 1].msg.outputText)
  }

  /** The concatenated text of the log's messages from one sender. */
  function TextFrom(log: seq<FeedbackMessage>, sender: Sender): string
  {
    if log == [] then ""
    else
      var last := log[|log| - 1];
      TextFrom(log[..|log| - 1], sender) + (if last.sender == sender then last.text else "")
  }

  lemma TextFromAppend(log: seq<FeedbackMessage>, m: FeedbackMessage, sender: Sender)
    ensures TextFrom(log + [m], sender) == TextFrom(log, sender) + (if m.sender == sender then m.text else "")
  {
    assert (log + [m])[..|log|] == log;
  }

  /** Fragments reach the log only through a turn completion. */
  lemma NoTurnNoMessage(t: Transcript, msg: ServerMessage, clock: nat)
    requires !msg.turnComplete
    ensures Step(t, msg, clock).log == t.log
    ensures Step(t, msg, clock).input == t.input + Fragment(msg.inputText)
  {
  }

  /**
   * The flush rules: a non-blank accumulator becomes one message carrying
   * its untrimmed text, the user's before the model's, and is emptied; a
   * blank accumulator emits nothing and keeps its whitespace. Either way
   * both accumulators are blank afterwards.
   */
  lemma TurnFlushRules(t: Transcript, msg: ServerMessage, clock: nat)
    requires msg.turnComplete
    ensures var a := AddFragments(t, msg); var s := Step(t, msg, clock);
      && s.log == t.log
           + (if IsBlank(a.input) then [] else [UserMessage(a.input, clock)])
           + (if IsBlank(a.output) then [] else [ModelMessage(a.output, clock)])
      && s.input == (if IsBlank(a.input) then a.input else "")
      && (!msg.interrupted ==> s.output == (if IsBlank(a.output) then a.output else ""))
      && IsBlank(s.input) && IsBlank(s.output)
  {
    EmptyIsBlank();
  }

  /** An interruption discards the model's partial turn but keeps the user's. */
  lemma InterruptDiscardsOutput(t: Transcript, msg: ServerMessage, clock: nat)
    requires msg.interrupted && !msg.turnComplete
    ensures Step(t, msg, clock) == t.(input := t.input + Fragment(msg.inputText), output := "")
  {
  }

  /** Praise can only come from a model message that was just logged. */
  lemma PraiseComesFromModelMessage(t: Transcript, msg: ServerMessage, clock: nat)
    requires Praised(t, msg)
    ensures var log := Step(t, msg, clock).log;
      |log| > |t.log| && log[|log| - 1].sender == Model && IsPraise(log[|log| - 1].text)
  {
    var a := AddFragments(t, msg);
    var u := if !IsBlank(a.input) then a.(log := a.log + [UserMessage(a.input, clock)], input := "") else a;
    assert u.output == a.output && |u.log| >= |t.log|;
    assert FlushTurn(a, clock).log == u.log + [ModelMessage(a.output, clock)];
  }

  /** The log never holds a blank message. */
  lemma StepKeepsNonBlankLog(t: Transcript, msg: ServerMessage, clock: nat)
    requires NonBlankLog(t.log)
    ensures NonBlankLog(Step(t, msg, clock).log)
  {
    var a := AddFragments(t, msg);
    if msg.turnComplete {
      var u := if !IsBlank(a.input) then a.(log := a.log + [UserMessage(a.input, clock)], input := "") else a;
      if !IsBlank(a.input) {
        NonBlankAppend(a.log, UserMessage(a.input, clock));
      }
      if !IsBlank(u.output) {
        NonBlankAppend(u.log, ModelMessage(u.output, clock));
      }
    }
  }

  lemma NonBlankAppend(log: seq<FeedbackMessage>, m: FeedbackMessage)
    requires NonBlankLog(log) && !IsBlank(m.text)
    ensures NonBlankLog(log + [m])
  {
    forall i | 0 <= i < |log| + 1 ensures !IsBlank((log + [m])[i].text) {
      if i < |log| {
        assert (log + [m])[i] == log[i];
      }
    }
  }

  /** The text of one sender that is still accumulating. */
  function Pending(t: Transcript, sender: Sender): string
  {
    if sender == User then t.input else t.output
  }

  /** A flush moves text from the accumulators to the log without losing, duplicating or reordering any. */
  lemma FlushTurnConserves(t: Transcript, clock: nat, sender: Sender)
    ensures var f := FlushTurn(t, clock);
      TextFrom(f.log, sender) + Pending(f, sender) == TextFrom(t.log, sender) + Pending(t, sender)
  {
    var u := if !IsBlank(t.input) then t.(log := t.log + [UserMessage(t.input, clock)], input := "") else t;
    if !IsBlank(t.input) {
      TextFromAppend(t.log, UserMessage(t.input, clock), sender);
    }
    assert TextFrom(u.log, sender) + Pending(u, sender) == TextFrom(t.log, sender) + Pending(t, sender);
    if !IsBlank(u.output) {
      TextFromAppend(u.log, ModelMessage(u.output, clock), sender);
    }
  }

  /** Within one message, no user text is lost or duplicated on its way to the log. */
  lemma StepConservesInput(t: Transcript, msg: ServerMessage, clock: nat)
    ensures var s := Step(t, msg, clock);
      TextFrom(s.log, User) + s.input == TextFrom(t.log, User) + t.input + Fragment(msg.inputText)
  {
    var a := AddFragments(t, msg);
    var f := if msg.turnComplete then FlushTurn(a, clock) else a;
    FlushTurnConserves(a, clock, User);
    assert TextFrom(f.log, User) + f.input == TextFrom(t.log, User) + t.input + Fragment(msg.inputText);
    assert Step(t, msg, clock).log == f.log && Step(t, msg, clock).input == f.input;
  }

  /**
   * Model text reaches the log in order and without duplication; only an
   * interruption drops any of it.
   */
  lemma StepConservesOutput(t: Transcript, msg: ServerMessage, clock: nat)
    ensures var s := Step(t, msg, clock); var before := TextFrom(t.log, Model) + t.output + Fragment(msg.outputText);
      && TextFrom(s.log, Model) + s.output <= before
      && (!msg.interrupted ==> TextFrom(s.log, Model) + s.output == before)
  {
    var a := AddFragments(t, msg);
    var f := if msg.turnComplete then FlushTurn(a, clock) else a;
    FlushTurnConserves(a, clock, Model);
    var logged := TextFrom(f.log, Model);
    assert logged + f.output == TextFrom(t.log, Model) + t.output + Fragment(msg.outputText);
    var s := Step(t, msg, clock);
    assert s.log == f.log;
    if msg.interrupted {
      assert s.output == "" && logged + "" == logged;
    } else {
      assert s == f;
    }
  }

  /**
   * Over any sequence of messages, the user messages logged plus what is
   * still accumulated are exactly the user fragments received, in order.
   */
  lemma {:induction false} RunConservesInput(t: Transcript, events: seq<Inbound>)
    ensures var s := Run(t, events);
      TextFrom(s.log, User) + s.input == TextFrom(t.log, User) + t.input + InputFragments(events)
  {
    if events != [] {
      var init := events[..|events| - 1];
      var last := events[|events| - 1];
      RunConservesInput(t, init);
      StepConservesInput(Run(t, init), last.msg, last.clock);
    }
  }

  predicate NoInterruption(events: seq<Inbound>)
  {
    forall i :: 0 <= i < |events| ==> !events[i].msg.interrupted
  }

  /** Without interruptions the same holds for the model's side. */
  lemma {:induction false} RunConservesOutput(t: Transcript, events: seq<Inbound>)
    requires NoInterruption(events)
    ensures var s := Run(t, events);
      TextFrom(s.log, Model) + s.output == TextFrom(t.log, Model) + t.output + OutputFragments(events)
  {
    if events != [] {
      var init := events[..|events| - 1];
      var last := events[|events| - 1];
      RunConservesOutput(t, init);
      StepConservesOutput(Run(t, init), last.msg, last.clock);
    }
  }

  /** Logged messages are never rewritten or reordered: the old log stays a prefix. */
  lemma {:induction false} RunExtendsLog(t: Transcript, events: seq<Inbound>)
    ensures t.log <= Run(t, events).log
  {
    if events != [] {
      RunExtendsLog(t, events[..|events| - 1]);
    }
  }
}
