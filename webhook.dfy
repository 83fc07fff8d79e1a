/**
 * The /webhook routes of app.js: the subscription check answered on GET and
 * the batch walk of POST, which hands every messaging event of every page
 * entry to its handler and then acknowledges the batch.
 */
module Webhook {

  import opened Wrappers
  import opened Messages
  import opened Dispatch

  /** The query of GET /webhook: `hub.mode`, `hub.verify_token`, `hub.challenge`. */
  datatype VerifyQuery = VerifyQuery(mode: Option<string>, verifyToken: Option<string>, challenge: Option<string>)

  datatype VerifyReply =
    | Challenge(body: Option<string>)  // status 200, the challenge as the body
    | Forbidden                         // status 403

  /**
   * GET /webhook: the platform's subscription handshake. The challenge is
   * echoed, unchanged, exactly when the mode is "subscribe" and the token is
   * the configured validation token.
   */
  function GetWebhook(cfg: Config, query: VerifyQuery): (r: VerifyReply)
    ensures r.Challenge? <==> query.mode == Some("subscribe") && query.verifyToken == Some(cfg.validationToken)
    ensures r.Challenge? ==> r.body == query.challenge
  {
    if query.mode == Some("subscribe") && query.verifyToken == Some(cfg.validationToken) then
      Challenge(query.challenge)
    else
      Forbidden
  }

  /** One element of `data.entry`: a page, a time, and its messaging events. */
  datatype PageEntry = PageEntry(id: string, time: int, messaging: seq<MessagingEvent>)

  /** The parsed POST body; `objectKind` is its `object` field. */
  datatype WebhookBody = WebhookBody(objectKind: string, entries: seq<PageEntry>)

  datatype PostReply =
    | Acknowledged           // res.sendStatus(200)
    | Aborted(fault: Fault)  // an exception left the handler before the 200
    | Unanswered             // not a page subscription: no answer at all

  /** The events of a batch, entry by entry and, within an entry, in order. */
  function AllEvents(entries: seq<PageEntry>): seq<MessagingEvent>
  {
    if entries == [] then [] else entries[0].messaging + AllEvents(entries[1..])
  }

  /** What each event's handler does, event by event. */
  function Outcomes(build: Build, cfg: Config, events: seq<MessagingEvent>): (os: seq<Outcome>)
    ensures |os| == |events|
  {
    if events == [] then [] else [HandleEvent(build, cfg, events[0])] + Outcomes(build, cfg, events[1..])
  }

  /** The events handled one after another, stopping at the first that throws. */
  function RunEvents(build: Build, cfg: Config, events: seq<MessagingEvent>): Outcome
  {
    Chain(Outcomes(build, cfg, events))
  }

  /** The messages POST /webhook hands to the Send API, and its answer. */
  function PostWebhook(build: Build, cfg: Config, body: WebhookBody): (seq<OutboundMessage>, PostReply)
  {
    if body.objectKind != "page" then ([], Unanswered)
    else
      var o := RunEvents(build, cfg, AllEvents(body.entries));
      (o.sent, if o.fault.None? then Acknowledged else Aborted(o.fault.value))
  }

  /**
   * POST /webhook: the nested forEach over `data.entry` and
   * `pageEntry.messaging`, with the Send API replaced by the outbox.
   */
  method ReceiveWebhook(build: Build, cfg: Config, body: WebhookBody) returns (outbox: seq<OutboundMessage>, reply: PostReply)
    ensures (outbox, reply) == PostWebhook(build, cfg, body)
  {
    outbox := [];
    if body.objectKind != "page" {
      reply := Unanswered;
      return;
    }
    var entries := body.entries;
    var i := 0;
    while i < |entries|
      invariant 0 <= i <= |entries|
      invariant RunEvents(build, cfg, AllEvents(entries[..i])) == Done(outbox)
    {
      var events := entries[i].messaging;
      var j := 0;
      assert AllEvents(entries[..i]) + events[..j] == AllEvents(entries[..i]);
      while j < |events|
        invariant 0 <= j <= |events|
        invariant RunEvents(build, cfg, AllEvents(entries[..i]) + events[..j]) == Done(outbox)
      {
        var o := HandleEvent(build, cfg, events[j]);
        RunEventsStep(build, cfg, AllEvents(entries[..i]), events, j);
        outbox := outbox + o.sent;
        if o.fault.Some? {
          reply := Aborted(o.fault.value);
          RunEventsAbort(build, cfg, entries, i, j);
          return;
        }
        j := j + 1;
      }
      assert events[..j] == events;
      AllEventsStep(entries, i);
      i := i + 1;
    }
    assert entries[..i] == entries;
    reply := Acknowledged;
  }

  lemma {:induction false} AllEventsAppend(a: seq<PageEntry>, b: seq<PageEntry>)
    ensures AllEvents(a + b) == AllEvents(a) + AllEvents(b)
  {
    if a == [] {
      assert a + b == b;
    } else {
      assert (a + b)[1..] == a[1..] + b;
      AllEventsAppend(a[1..], b);
    }
  }

  lemma AllEventsStep(entries: seq<PageEntry>, i: nat)
    requires i < |entries|
    ensures AllEvents(entries[..i + 1]) == AllEvents(entries[..i]) + entries[i].messaging
  {
    assert entries[..i + 1] == entries[..i] + [entries[i]];
    AllEventsAppend(entries[..i], [entries[i]]);
    assert AllEvents([entries[i]]) == entries[i].messaging + AllEvents([]);
  }

  lemma {:induction false} OutcomesAt(build: Build, cfg: Config, events: seq<MessagingEvent>, i: nat)
    requires i < |events|
    ensures Outcomes(build, cfg, events)[i] == HandleEvent(build, cfg, events[i])
  {
    if i > 0 {
      OutcomesAt(build, cfg, events[1..], i - 1);
    }
  }

  lemma OutcomesEach(build: Build, cfg: Config, events: seq<MessagingEvent>)
    ensures forall i | 0 <= i < |events| :: Outcomes(build, cfg, events)[i] == HandleEvent(build, cfg, events[i])
  {
    forall i | 0 <= i < |events|
      ensures Outcomes(build, cfg, events)[i] == HandleEvent(build, cfg, events[i])
    {
      OutcomesAt(build, cfg, events, i);
    }
  }

  lemma OutcomesPrefix(build: Build, cfg: Config, events: seq<MessagingEvent>, k: nat)
    requires k <= |events|
    ensures Outcomes(build, cfg, events[..k]) == Outcomes(build, cfg, events)[..k]
  {
    assert events == events[..k] + events[k..];
    OutcomesAppend(build, cfg, events[..k], events[k..]);
  }

  lemma {:induction false} OutcomesAppend(build: Build, cfg: Config, a: seq<MessagingEvent>, b: seq<MessagingEvent>)
    ensures Outcomes(build, cfg, a + b) == Outcomes(build, cfg, a) + Outcomes(build, cfg, b)
  {
    if a == [] {
      assert a + b == b;
    } else {
      assert (a + b)[0] == a[0] && (a + b)[1..] == a[1..] + b;
      OutcomesAppend(build, cfg, a[1..], b);
    }
  }

  /** Handling a concatenation is handling the first part, then the second unless the first threw. */
  lemma RunEventsAppend(build: Build, cfg: Config, a: seq<MessagingEvent>, b: seq<MessagingEvent>)
    ensures RunEvents(build, cfg, a + b) == Then(RunEvents(build, cfg, a), RunEvents(build, cfg, b))
  {
    OutcomesAppend(build, cfg, a, b);
    ChainAppend(Outcomes(build, cfg, a), Outcomes(build, cfg, b));
  }

  lemma RunEventsStep(build: Build, cfg: Config, done: seq<MessagingEvent>, events: seq<MessagingEvent>, j: nat)
    requires j < |events|
    ensures RunEvents(build, cfg, done + events[..j + 1])
         == Then(RunEvents(build, cfg, done + events[..j]), HandleEvent(build, cfg, events[j]))
  {
    assert done + events[..j + 1] == (done + events[..j]) + [events[j]];
    RunEventsAppend(build, cfg, done + events[..j], [events[j]]);
    assert Outcomes(build, cfg, [events[j]]) == [HandleEvent(build, cfg, events[j])];
    assert Chain([HandleEvent(build, cfg, events[j])]) == Then(HandleEvent(build, cfg, events[j]), Done([]));
    ThenUnit(HandleEvent(build, cfg, events[j]));
  }

  lemma AllEventsAround(entries: seq<PageEntry>, i: nat)
    requires i < |entries|
    ensures AllEvents(entries) == AllEvents(entries[..i]) + entries[i].messaging + AllEvents(entries[i + 1..])
  {
    var later := entries[i..];
    assert later[0] == entries[i] && later[1..] == entries[i + 1..];
    assert AllEvents(later) == entries[i].messaging + AllEvents(entries[i + 1..]);
    assert entries == entries[..i] + later;
    AllEventsAppend(entries[..i], later);
  }

  /** Once event `j` of entry `i` throws, the rest of the batch is never looked at. */
  lemma RunEventsAbort(build: Build, cfg: Config, entries: seq<PageEntry>, i: nat, j: nat)
    requires i < |entries| && j < |entries[i].messaging|
    requires RunEvents(build, cfg, AllEvents(entries[..i]) + entries[i].messaging[..j + 1]).fault.Some?
    ensures RunEvents(build, cfg, AllEvents(entries))
         == RunEvents(build, cfg, AllEvents(entries[..i]) + entries[i].messaging[..j + 1])
  {
    var events := entries[i].messaging;
    var upTo := AllEvents(entries[..i]) + events[..j + 1];
    AbortSplit(entries, i, j);
    RunEventsAfterFault(build, cfg, upTo, events[j + 1..] + AllEvents(entries[i + 1..]));
  }

  lemma AbortSplit(entries: seq<PageEntry>, i: nat, j: nat)
    requires i < |entries| && j < |entries[i].messaging|
    ensures AllEvents(entries)
         == (AllEvents(entries[..i]) + entries[i].messaging[..j + 1])
            + (entries[i].messaging[j + 1..] + AllEvents(entries[i + 1..]))
  {
    var events := entries[i].messaging;
    AllEventsAround(entries, i);
    assert events == events[..j + 1] + events[j + 1..];
  }

  /** Events after one that throws change nothing. */
  lemma RunEventsAfterFault(build: Build, cfg: Config, a: seq<MessagingEvent>, b: seq<MessagingEvent>)
    requires RunEvents(build, cfg, a).fault.Some?
    ensures RunEvents(build, cfg, a + b) == RunEvents(build, cfg, a)
  {
    RunEventsAppend(build, cfg, a, b);
  }

  /** What each event hands over, concatenated in order. */
  function SentBy(build: Build, cfg: Config, events: seq<MessagingEvent>): seq<OutboundMessage>
  {
    AllSent(Outcomes(build, cfg, events))
  }

  /**
   * A page batch is acknowledged exactly when none of its events throws,
   * and then the outbox is every event's messages, entry by entry and event
   * by event.
   */
  lemma PostAcknowledged(build: Build, cfg: Config, body: WebhookBody)
    requires body.objectKind == "page"
    ensures PostWebhook(build, cfg, body).1 == Acknowledged <==>
            forall e | e in AllEvents(body.entries) :: HandleEvent(build, cfg, e).fault.None?
    ensures PostWebhook(build, cfg, body).1 == Acknowledged ==>
            PostWebhook(build, cfg, body).0 == SentBy(build, cfg, AllEvents(body.entries))
  {
    var events := AllEvents(body.entries);
    var os := Outcomes(build, cfg, events);
    ChainCompletes(os);
    OutcomesEach(build, cfg, events);
    assert (forall e | e in events :: HandleEvent(build, cfg, e).fault.None?)
       <==> (forall i | 0 <= i < |os| :: os[i].fault.None?);
  }

  /**
   * A page batch whose event `k` is the first to throw is aborted with that
   * exception; the messages already handed over stay sent, and no later
   * event is handled.
   */
  lemma PostAborted(build: Build, cfg: Config, body: WebhookBody, k: nat)
    requires body.objectKind == "page"
    requires var events := AllEvents(body.entries);
             && k < |events| && HandleEvent(build, cfg, events[k]).fault.Some?
             && forall j | 0 <= j < k :: HandleEvent(build, cfg, events[j]).fault.None?
    ensures var events := AllEvents(body.entries);
            var thrown := HandleEvent(build, cfg, events[k]);
            PostWebhook(build, cfg, body)
            == (SentBy(build, cfg, events[..k]) + thrown.sent, Aborted(thrown.fault.value))
  {
    var events := AllEvents(body.entries);
    var os := Outcomes(build, cfg, events);
    OutcomesEach(build, cfg, events);
    ChainFirstFault(os, k);
    OutcomesPrefix(build, cfg, events, k);
  }

  /** Only a page subscription is answered, and nothing is sent for anything else. */
  lemma PostOnlyPages(build: Build, cfg: Config, body: WebhookBody)
    ensures PostWebhook(build, cfg, body).1 == Unanswered <==> body.objectKind != "page"
    ensures body.objectKind != "page" ==> PostWebhook(build, cfg, body).0 == []
  {
  }

  /** Everything POST /webhook sends goes to the sender of an event of the batch. */
  lemma PostRepliesToSenders(build: Build, cfg: Config, body: WebhookBody, m: OutboundMessage)
    requires m in PostWebhook(build, cfg, body).0
    ensures exists e | e in AllEvents(body.entries) :: m.recipient == e.sender
  {
    var events := AllEvents(body.entries);
    var os := Outcomes(build, cfg, events);
    ChainSentPrefix(os);
    var sent := Chain(os).sent;
    var i :| 0 <= i < |sent| && sent[i] == m;
    assert AllSent(os)[i] == m;
    AllSentFrom(os, m);
    var k :| 0 <= k < |os| && m in os[k].sent;
    OutcomesAt(build, cfg, events, k);
    assert events[k] in events;
  }

  lemma {:induction false} AllSentFrom(os: seq<Outcome>, m: OutboundMessage)
    requires m in AllSent(os)
    ensures exists k | 0 <= k < |os| :: m in os[k].sent
  {
    if m !in os[0].sent {
      AllSentFrom(os[1..], m);
      var k :| 0 <= k < |os[1..]| && m in os[1..][k].sent;
      assert os[k + 1] == os[1..][k];
    }
  }
}
