/** `sendtext_remote`: a notification whose content reports an upstream timeout is suppressed when
    another one went out less than an hour ago; every other notification is posted. The module-level
    `sendtimeout` is the gate's state; the clock is an input and the HTTP post is recorded in an outbox
    instead of being made. */
module Notify {
  import opened Text

  /** The text that marks a notification as a timeout report. */
  const TimeoutMarker: string := "Operation timed out after"
  /** `60 * 60` seconds between two timeout reports. */
  const SuppressWindow: real := 3600.0

  /** The JSON body posted to the notification server. */
  datatype Payload = Payload(cmd: string, toUser: string, msgContent: string)

  predicate IsTimeoutReport(content: string)
  {
    Contains(content, TimeoutMarker)
  }

  /** The gate for one call: whether the notification goes out, and the new `sendtimeout`. A timeout
      report within the window of the last one is dropped and leaves the state as it was; one outside
      the window goes out and restarts the window; anything else goes out without touching it. */
  function Gate(sendTimeout: real, now: real, content: string): (bool, real)
  {
    if IsTimeoutReport(content) then
      if now - sendTimeout < SuppressWindow then (false, sendTimeout) else (true, now)
    else (true, sendTimeout)
  }

  /** The `msgcontent` field: the title on its own line before the content, or the content alone when
      `rawtext` is set. */
  function MessageContent(content: string, title: string, rawText: bool): string
  {
    if rawText then content else title + "\n" + content
  }

  class Notifier {
    /** The time the last timeout report was let through; 0 at start-up. */
    var sendTimeout: real
    /** The bodies posted so far, in order. */
    var outbox: seq<Payload>

    constructor ()
      ensures sendTimeout == 0.0 && outbox == []
    {
      sendTimeout := 0.0;
      outbox := [];
    }

    method SendTextRemote(toUser: string, content: string, title: string, rawText: bool, now: real)
      modifies this
      ensures sendTimeout == Gate(old(sendTimeout), now, content).1
      ensures Gate(old(sendTimeout), now, content).0 ==>
        outbox == old(outbox) + [Payload("sendtext", toUser, MessageContent(content, title, rawText))]
      ensures !Gate(old(sendTimeout), now, content).0 ==> outbox == old(outbox)
    {
      var newTitle := title + "\n";
      if IsTimeoutReport(content) {
        if now - sendTimeout < SuppressWindow {
          return;
        }
        sendTimeout := now;
      }
      var msgContent := newTitle + content;
      if rawText {
        msgContent := content;
      }
      outbox := outbox + [Payload("sendtext", toUser, msgContent)];
    }
  }

  /** One call of `sendtext_remote`: its clock reading and its content. */
  datatype Call = Call(now: real, content: string)

  /** Which of a series of calls go out, starting from the given `sendtimeout`. */
  function Sent(sendTimeout: real, calls: seq<Call>): (r: seq<bool>)
    ensures |r| == |calls|
    decreases |calls|
  {
    if calls == [] then []
    else
      var g := Gate(sendTimeout, calls[0].now, calls[0].content);
      [g.0] + Sent(g.1, calls[1..])
  }

  /** The first call goes through the gate; the others see the state it leaves. */
  lemma SentCons(sendTimeout: real, calls: seq<Call>)
    requires calls != []
    ensures var g := Gate(sendTimeout, calls[0].now, calls[0].content);
      && Sent(sendTimeout, calls)[0] == g.0
      && forall k :: 0 <= k < |calls| - 1 ==> Sent(sendTimeout, calls)[k + 1] == Sent(g.1, calls[1..])[k]
  {
  }

  /** Every notification that is not a timeout report goes out. */
  lemma {:induction false} OrdinaryNoticesSent(sendTimeout: real, calls: seq<Call>)
    ensures forall i :: 0 <= i < |calls| && !IsTimeoutReport(calls[i].content) ==> Sent(sendTimeout, calls)[i]
    decreases |calls|
  {
    if calls != [] {
      var g := Gate(sendTimeout, calls[0].now, calls[0].content);
      SentCons(sendTimeout, calls);
      OrdinaryNoticesSent(g.1, calls[1..]);
      assert forall k :: 0 <= k < |calls| - 1 ==> calls[k + 1] == calls[1..][k];
    }
  }

  /** A timeout report goes out only an hour or more past the state it started from. */
  lemma {:induction false} SentReportsAfterStart(sendTimeout: real, calls: seq<Call>)
    ensures forall i :: 0 <= i < |calls| && IsTimeoutReport(calls[i].content) && Sent(sendTimeout, calls)[i] ==>
      calls[i].now - sendTimeout >= SuppressWindow
    decreases |calls|
  {
    if calls != [] {
      var g := Gate(sendTimeout, calls[0].now, calls[0].content);
      SentCons(sendTimeout, calls);
      SentReportsAfterStart(g.1, calls[1..]);
      // the state never moves back: a report that went out is an hour past it
      assert g.1 >= sendTimeout;
      assert forall k :: 0 <= k < |calls| - 1 ==> calls[k + 1] == calls[1..][k];
    }
  }

  /** Two timeout reports that both go out are at least an hour apart. */
  lemma SentReportsSpaced(sendTimeout: real, calls: seq<Call>)
    ensures forall i, j ::
      (0 <= i < j < |calls| && IsTimeoutReport(calls[i].content) && IsTimeoutReport(calls[j].content)
       && Sent(sendTimeout, calls)[i] && Sent(sendTimeout, calls)[j])
      ==> calls[j].now - calls[i].now >= SuppressWindow
  {
    forall i, j | 0 <= i < j < |calls| && IsTimeoutReport(calls[i].content) && IsTimeoutReport(calls[j].content)
      && Sent(sendTimeout, calls)[i] && Sent(sendTimeout, calls)[j]
      ensures calls[j].now - calls[i].now >= SuppressWindow
    {
      PairSpaced(sendTimeout, calls, i, j);
    }
  }

  /** One pair of timeout reports that both went out, by induction on the earlier one's position. */
  lemma {:induction false} PairSpaced(sendTimeout: real, calls: seq<Call>, i: nat, j: nat)
    requires i < j < |calls| && IsTimeoutReport(calls[i].content) && IsTimeoutReport(calls[j].content)
    requires Sent(sendTimeout, calls)[i] && Sent(sendTimeout, calls)[j]
    ensures calls[j].now - calls[i].now >= SuppressWindow
    decreases i
  {
    var g := Gate(sendTimeout, calls[0].now, calls[0].content);
    var rest := calls[1..];
    SentCons(sendTimeout, calls);
    assert rest[j - 1] == calls[j];
    if i == 0 {
      SentReportsAfterStart(g.1, rest);
    } else {
      assert rest[i - 1] == calls[i];
      PairSpaced(g.1, rest, i - 1, j - 1);
    }
  }

  /** Whatever the clock does, every notification that is not a timeout report goes out, and two
      timeout reports that both go out are at least an hour apart; the first one that goes out is an
      hour past the starting state. */
  lemma TimeoutReportsSpaced(sendTimeout: real, calls: seq<Call>)
    ensures forall i :: 0 <= i < |calls| && !IsTimeoutReport(calls[i].content) ==> Sent(sendTimeout, calls)[i]
    ensures forall i :: 0 <= i < |calls| && IsTimeoutReport(calls[i].content) && Sent(sendTimeout, calls)[i] ==>
      calls[i].now - sendTimeout >= SuppressWindow
    ensures forall i, j ::
      (0 <= i < j < |calls| && IsTimeoutReport(calls[i].content) && IsTimeoutReport(calls[j].content)
       && Sent(sendTimeout, calls)[i] && Sent(sendTimeout, calls)[j])
      ==> calls[j].now - calls[i].now >= SuppressWindow
  {
    OrdinaryNoticesSent(sendTimeout, calls);
    SentReportsAfterStart(sendTimeout, calls);
    SentReportsSpaced(sendTimeout, calls);
  }

  /** Two timeout reports a minute apart: only the first goes out. */
  lemma SecondTimeoutWithinHourDropped()
    ensures Sent(0.0, [Call(10000.0, TimeoutMarker), Call(10060.0, TimeoutMarker)]) == [true, false]
  {
    ContainsItself(TimeoutMarker);
    var calls := [Call(10000.0, TimeoutMarker), Call(10060.0, TimeoutMarker)];
    assert calls[1..] == [Call(10060.0, TimeoutMarker)];
    assert calls[1..][1..] == [];
  }
}
