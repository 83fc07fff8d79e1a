/**
 * The event handling of app.js: how one messaging event is classified and
 * what each handler hands to the Send API. callSendAPI is replaced by the
 * `sent` list of the outcome; an exception a handler raises is its `fault`.
 */
module Dispatch {

  import opened Wrappers
  import opened Messages
  import opened Normalization
  import Edm
  import TicketTypes

  /** The configuration read at start-up (the secrets are used only by foreign calls). */
  datatype Config = Config(serverUrl: string, backendServerUrl: string, validationToken: string)

  /**
   * The `message` object of a message event. Each flag is the truthiness of
   * the field: `is_echo`, `quick_reply` (an object) and `attachments` (an
   * array, truthy even when empty). `text` may be missing.
   */
  datatype InboundMessage = InboundMessage(isEcho: bool, text: Option<string>, quickReply: bool, attachments: bool)

  /** The `postback` object of a postback event. */
  datatype InboundPostback = InboundPostback(payload: Option<string>)

  /**
   * One element of `pageEntry.messaging`. The payload does not promise that
   * only one of the event fields is present, so each is optional.
   */
  datatype MessagingEvent = MessagingEvent(
    sender: string,
    recipient: string,
    optin: bool,
    message: Option<InboundMessage>,
    delivery: bool,
    postback: Option<InboundPostback>,
    read: bool,
    accountLinking: bool)

  datatype EventKind =
    | OptinEvent | MessageEvent | DeliveryEvent | PostbackEvent | ReadEvent | AccountLinkingEvent
    | UnknownEvent

  /** Position of a kind in the order the webhook tests the fields. */
  function Rank(k: EventKind): nat
  {
    match k
    case OptinEvent => 0
    case MessageEvent => 1
    case DeliveryEvent => 2
    case PostbackEvent => 3
    case ReadEvent => 4
    case AccountLinkingEvent => 5
    case UnknownEvent => 6
  }

  /** The kinds whose field the event carries. */
  function Present(e: MessagingEvent): set<EventKind>
  {
    (if e.optin then {OptinEvent} else {})
    + (if e.message.Some? then {MessageEvent} else {})
    + (if e.delivery then {DeliveryEvent} else {})
    + (if e.postback.Some? then {PostbackEvent} else {})
    + (if e.read then {ReadEvent} else {})
    + (if e.accountLinking then {AccountLinkingEvent} else {})
  }

  /**
   * The if/else-if chain of the POST /webhook handler: the present field
   * that comes first in the order optin, message, delivery, postback, read,
   * account_linking; unknown when none is present.
   */
  function Classify(e: MessagingEvent): (k: EventKind)
    ensures k == UnknownEvent <==> Present(e) == {}
    ensures k != UnknownEvent ==> k in Present(e) && forall k' | k' in Present(e) :: Rank(k) <= Rank(k')
  {
    if e.optin then OptinEvent
    else if e.message.Some? then MessageEvent
    else if e.delivery then DeliveryEvent
    else if e.postback.Some? then PostbackEvent
    else if e.read then ReadEvent
    else if e.accountLinking then AccountLinkingEvent
    else UnknownEvent
  }

  const QuickReplyText := "Quick reply tapped"
  const FallbackText := "Thanks for your messages, our admin will contact you ASAP "
  const AttachmentText := "Message with attachment received"
  const UnknownPostbackText := "Sorry I don't know what you talk about "

  /**
   * sendTextMessage. As written nothing defines it, so each call throws
   * before anything is sent; repaired, it sends one text message.
   */
  function SendTextMessage(build: Build, recipientId: string, text: string): (o: Outcome)
    ensures build == AsWritten ==> o == Outcome([], Some(Unbound("sendTextMessage")))
    ensures build == Repaired ==> o.fault.None? && o.sent == [OutboundMessage(recipientId, TextBody(text))]
  {
    match build
    case AsWritten => Outcome([], Some(Unbound("sendTextMessage")))
    case Repaired => Done([OutboundMessage(recipientId, TextBody(text))])
  }

  /**
   * sendInitialQuestion: the welcome card, whose first button posts back
   * "showevents" and whose second is a phone call.
   */
  function SendInitialQuestion(recipientId: string): (m: OutboundMessage)
    ensures m.recipient == recipientId && WellFormed(m)
    ensures m.body.TemplateBody? && m.body.template.GenericTemplate?
    ensures |m.body.template.elements| == 1
    ensures var buttons := m.body.template.elements[0].buttons;
            && |buttons| == 2
            && buttons[0] == PostbackButton("Inquiry about tickets?", "showevents")
            && buttons[1] == PhoneNumberButton("Call Phone Number", "+16505551234")
  {
    OutboundMessage(recipientId, TemplateBody(GenericTemplate([
      Element(
        "Welcome",
        "You can inquiry about tickets",
        "https://www.facebook.com/mmravergyi/",
        "http://oi67.tinypic.com/2qk8o05.jpg",
        [
          PostbackButton("Inquiry about tickets?", "showevents"),
          PhoneNumberButton("Call Phone Number", "+16505551234")
        ])
    ])))
  }

  /** sendEventList: a generic template whose cards are the events computed at start-up. */
  function SendEventList(cfg: Config, recipientId: string): (m: OutboundMessage)
    ensures m.recipient == recipientId && WellFormed(m)
    ensures m.body == TemplateBody(GenericTemplate(Edm.GetEDMJSON(cfg.serverUrl)))
  {
    OutboundMessage(recipientId, TemplateBody(GenericTemplate(Edm.GetEDMJSON(cfg.serverUrl))))
  }

  /** Every message of an outcome goes to `recipientId` and is a well-formed message. */
  predicate AddressedTo(o: Outcome, recipientId: string)
  {
    forall m | m in o.sent :: m.recipient == recipientId && WellFormed(m)
  }

  /**
   * receivedMessage. The text is normalised before anything else, so a
   * message without text throws whatever else it carries. Then an echo is
   * ignored, a quick reply is acknowledged, a non-blank text is matched
   * against the commands ("showevents" falls through to the default reply),
   * and a blank text with attachments is acknowledged.
   */
  function ReceivedMessage(build: Build, cfg: Config, senderId: string, message: InboundMessage): (o: Outcome)
    ensures AddressedTo(o, senderId)
    ensures message.text.None? ==> o == Outcome([], Some(MissingText))
  {
    if message.text.None? then Outcome([], Some(MissingText))
    else
      var messageText := Normalize(message.text.value);
      if message.isEcho then Done([])
      else if message.quickReply then SendTextMessage(build, senderId, QuickReplyText)
      else if messageText != "" then
        if messageText == "getstarted" then Done([SendInitialQuestion(senderId)])
        else if messageText == "showevents" then
          Then(Done([SendEventList(cfg, senderId)]), SendTextMessage(build, senderId, FallbackText))
        else SendTextMessage(build, senderId, FallbackText)
      else if message.attachments then SendTextMessage(build, senderId, AttachmentText)
      else Done([])
  }

  /**
   * receivedPostback: exact match on the normalised payload, no fall
   * through; the default reply quotes the payload as it came.
   */
  function ReceivedPostback(build: Build, cfg: Config, senderId: string, postback: InboundPostback): (o: Outcome)
    ensures AddressedTo(o, senderId)
    ensures postback.payload.None? ==> o == Outcome([], Some(MissingPayload))
  {
    if postback.payload.None? then Outcome([], Some(MissingPayload))
    else
      var payload := postback.payload.value;
      var key := Normalize(payload);
      if key == "getstarted" then Done([SendInitialQuestion(senderId)])
      else if key == "showevents" then Done([SendEventList(cfg, senderId)])
      else if key == "buyevent1" then BuyTickets(build, cfg, senderId, "Event 1")
      else if key == "buyevent2" then BuyTickets(build, cfg, senderId, "Event 2")
      else SendTextMessage(build, senderId, UnknownPostbackText + payload)
  }

  /**
   * The two ticket builders, called one after the other for one event. As
   * written the second throws, so only the first three tiers reach the
   * sender; repaired, both messages do, in order.
   */
  function BuyTickets(build: Build, cfg: Config, senderId: string, eventName: string): (o: Outcome)
    ensures AddressedTo(o, senderId)
    ensures build == AsWritten ==>
      o == Outcome([TicketTypes.FirstTiersMessage(senderId, eventName, cfg.backendServerUrl)], Some(Unbound("callbackURL")))
    ensures build == Repaired ==>
      o == Done([TicketTypes.FirstTiersMessage(senderId, eventName, cfg.backendServerUrl),
                 TicketTypes.LastTiersMessage(senderId, eventName, cfg.backendServerUrl)])
  {
    Then(TicketTypes.ShowTicketsByEvent(senderId, eventName, cfg.backendServerUrl),
         TicketTypes.ShowTicketsByEvent2(build, senderId, eventName, cfg.backendServerUrl))
  }

  /**
   * One iteration of the inner forEach of POST /webhook. The optin and
   * account-linking handlers are called but defined nowhere, so those
   * events throw; delivery and read events are only logged; unknown events
   * are dropped.
   */
  function HandleEvent(build: Build, cfg: Config, e: MessagingEvent): (o: Outcome)
    ensures AddressedTo(o, e.sender)
    ensures Classify(e) in {DeliveryEvent, ReadEvent, UnknownEvent} ==> o == Done([])
    ensures Classify(e) == OptinEvent ==> o == Outcome([], Some(Unbound("receivedAuthentication")))
    ensures Classify(e) == AccountLinkingEvent ==> o == Outcome([], Some(Unbound("receivedAccountLink")))
    ensures Classify(e) == MessageEvent ==> o == ReceivedMessage(build, cfg, e.sender, e.message.value)
    ensures Classify(e) == PostbackEvent ==> o == ReceivedPostback(build, cfg, e.sender, e.postback.value)
  {
    match Classify(e)
    case OptinEvent => Outcome([], Some(Unbound("receivedAuthentication")))
    case MessageEvent => ReceivedMessage(build, cfg, e.sender, e.message.value)
    case DeliveryEvent => Done([])
    case PostbackEvent => ReceivedPostback(build, cfg, e.sender, e.postback.value)
    case ReadEvent => Done([])
    case AccountLinkingEvent => Outcome([], Some(Unbound("receivedAccountLink")))
    case UnknownEvent => Done([])
  }
}

module DispatchProperties {

  import opened Wrappers
  import opened Messages
  import opened Normalization
  import opened Dispatch
  import Edm
  import TicketTypes

  /** An echo is ignored and a quick reply is answered, before any command is looked at. */
  lemma EchoAndQuickReplyFirst(build: Build, cfg: Config, senderId: string, message: InboundMessage)
    requires message.text.Some?
    ensures message.isEcho ==> ReceivedMessage(build, cfg, senderId, message) == Done([])
    ensures !message.isEcho && message.quickReply ==>
      ReceivedMessage(build, cfg, senderId, message) == SendTextMessage(build, senderId, QuickReplyText)
  {
  }

  /** The command table of receivedMessage, with sendTextMessage bound. */
  lemma MessageCommandsRepaired(cfg: Config, senderId: string, message: InboundMessage)
    requires message.text.Some? && !message.isEcho && !message.quickReply
    ensures var key := Normalize(message.text.value);
            var o := ReceivedMessage(Repaired, cfg, senderId, message);
            && o.fault.None?
            && (key == "getstarted" ==> o.sent == [SendInitialQuestion(senderId)])
            && (key == "showevents" ==>
                  o.sent == [SendEventList(cfg, senderId), OutboundMessage(senderId, TextBody(FallbackText))])
            && (key != "" && key != "getstarted" && key != "showevents" ==>
                  o.sent == [OutboundMessage(senderId, TextBody(FallbackText))])
            && (key == "" && message.attachments ==> o.sent == [OutboundMessage(senderId, TextBody(AttachmentText))])
            && (key == "" && !message.attachments ==> o.sent == [])
  {
  }

  /**
   * The same table as written: only "getstarted" and an ignorable message
   * complete; "showevents" sends the event list and then throws; every
   * other reply throws before sending.
   */
  lemma MessageCommandsAsWritten(cfg: Config, senderId: string, message: InboundMessage)
    requires message.text.Some? && !message.isEcho
    ensures var key := Normalize(message.text.value);
            var o := ReceivedMessage(AsWritten, cfg, senderId, message);
            && (message.quickReply ==> o == Outcome([], Some(Unbound("sendTextMessage"))))
            && (!message.quickReply && key == "getstarted" ==> o == Done([SendInitialQuestion(senderId)]))
            && (!message.quickReply && key == "showevents" ==>
                  o == Outcome([SendEventList(cfg, senderId)], Some(Unbound("sendTextMessage"))))
            && (!message.quickReply && key != "getstarted" && key != "showevents" && (key != "" || message.attachments) ==>
                  o == Outcome([], Some(Unbound("sendTextMessage"))))
            && (!message.quickReply && key == "" && !message.attachments ==> o == Done([]))
  {
  }

  /**
   * Blank text counts as no text: a message whose text is all whitespace is
   * answered as if its text were empty, so only its attachments matter.
   */
  lemma BlankTextIsNoCommand(build: Build, cfg: Config, senderId: string, message: InboundMessage)
    requires message.text.Some? && !message.isEcho && !message.quickReply
    requires forall i | 0 <= i < |message.text.value| :: IsWhitespace(message.text.value[i])
    ensures ReceivedMessage(build, cfg, senderId, message)
         == ReceivedMessage(build, cfg, senderId, message.(text := Some("")))
    ensures ReceivedMessage(build, cfg, senderId, message)
         == if message.attachments then SendTextMessage(build, senderId, AttachmentText) else Done([])
  {
    NormalizeEmptyIffBlank(message.text.value);
    NormalizeEmptyIffBlank("");
    MessageDependsOnKey(build, cfg, senderId, message, "");
  }

  /** A message's reply depends on its text only through the normalised key. */
  lemma MessageDependsOnKey(build: Build, cfg: Config, senderId: string, message: InboundMessage, text: string)
    requires message.text.Some? && Normalize(text) == Normalize(message.text.value)
    ensures ReceivedMessage(build, cfg, senderId, message.(text := Some(text)))
         == ReceivedMessage(build, cfg, senderId, message)
  {
  }

  /** The postback table: one template per command, both ticket builders for a purchase. */
  lemma PostbackCommands(build: Build, cfg: Config, senderId: string, payload: string)
    ensures var key := Normalize(payload);
            var o := ReceivedPostback(build, cfg, senderId, InboundPostback(Some(payload)));
            && (key == "getstarted" ==> o == Done([SendInitialQuestion(senderId)]))
            && (key == "showevents" ==> o == Done([SendEventList(cfg, senderId)]))
            && (key == "buyevent1" ==> o == BuyTickets(build, cfg, senderId, "Event 1"))
            && (key == "buyevent2" ==> o == BuyTickets(build, cfg, senderId, "Event 2"))
            && (key !in {"getstarted", "showevents", "buyevent1", "buyevent2"} ==>
                  o == SendTextMessage(build, senderId, UnknownPostbackText + payload))
  {
  }

  /** Shouting a message changes nothing: its upper-case version gets the same reply. */
  lemma MessageIgnoresCase(build: Build, cfg: Config, senderId: string, message: InboundMessage)
    requires message.text.Some?
    ensures ReceivedMessage(build, cfg, senderId, message.(text := Some(ToUpperCase(message.text.value))))
         == ReceivedMessage(build, cfg, senderId, message)
  {
    NormalizeIgnoresCase(message.text.value);
    MessageDependsOnKey(build, cfg, senderId, message, ToUpperCase(message.text.value));
  }

  /** A command payload sent in upper case runs the same command. */
  lemma PostbackIgnoresCase(build: Build, cfg: Config, senderId: string, payload: string)
    requires Normalize(payload) in {"getstarted", "showevents", "buyevent1", "buyevent2"}
    ensures ReceivedPostback(build, cfg, senderId, InboundPostback(Some(ToUpperCase(payload))))
         == ReceivedPostback(build, cfg, senderId, InboundPostback(Some(payload)))
  {
    NormalizeIgnoresCase(payload);
    PostbackDependsOnKey(build, cfg, senderId, ToUpperCase(payload), payload);
  }

  /** The spacing and case of a postback payload matter only to the default reply. */
  lemma PostbackDependsOnKey(build: Build, cfg: Config, senderId: string, p: string, q: string)
    requires Normalize(p) == Normalize(q)
    requires Normalize(p) in {"getstarted", "showevents", "buyevent1", "buyevent2"}
    ensures ReceivedPostback(build, cfg, senderId, InboundPostback(Some(p)))
         == ReceivedPostback(build, cfg, senderId, InboundPostback(Some(q)))
  {
  }

  /**
   * The payload "  ShowEvents " normalises to "showevents" and brings exactly
   * the event list. (The three pieces are parameters: stated on the literal
   * payload, the verifier unfolds the normalisation character by character.)
   */
  lemma SpacedShowEvents(build: Build, cfg: Config, senderId: string, before: string, word: string, after: string)
    requires before == "  " && word == "ShowEvents" && after == " "
    ensures ReceivedPostback(build, cfg, senderId, InboundPostback(Some(before + word + after)))
         == Done([SendEventList(cfg, senderId)])
  {
    assert forall i | 0 <= i < |word| :: !IsWhitespace(word[i]);
    NormalizePadded(before, word, after);
    assert ToLowerCase(word) == "showevents";
    PostbackCommands(build, cfg, senderId, before + word + after);
  }

  /** A command key spelled in lower case with no spaces is its own key. */
  lemma CommandKeys(key: string)
    requires key in {"getstarted", "showevents", "buyevent1", "buyevent2"}
    ensures Normalize(key) == key
  {
    assert IsNormal(key);
    NormalizeKeepsNormal(key);
  }

  /** Tapping the welcome card's postback button brings the event list. */
  lemma InitialQuestionLeadsToEvents(build: Build, cfg: Config, senderId: string)
    ensures var button := SendInitialQuestion(senderId).body.template.elements[0].buttons[0];
            ReceivedPostback(build, cfg, senderId, InboundPostback(Some(button.payload)))
            == Done([SendEventList(cfg, senderId)])
  {
    var payload := SendInitialQuestion(senderId).body.template.elements[0].buttons[0].payload;
    assert payload == "showevents";
    CommandKeys(payload);
    PostbackCommands(build, cfg, senderId, payload);
  }

  /**
   * Each card of the event list posts back a payload that is already a
   * command key, and tapping it runs both ticket builders for that card's
   * event: "Event 1" for the first card, "Event 2" for the second.
   */
  lemma EventCardsLeadToTickets(build: Build, cfg: Config, senderId: string, i: nat)
    requires i < 2
    ensures var cards := SendEventList(cfg, senderId).body.template.elements;
            var payload := cards[i].buttons[0].payload;
            && Normalize(payload) == payload
            && ReceivedPostback(build, cfg, senderId, InboundPostback(Some(payload)))
               == BuyTickets(build, cfg, senderId, ["Event 1", "Event 2"][i])
  {
    var payload := SendEventList(cfg, senderId).body.template.elements[i].buttons[0].payload;
    assert payload == ["buyevent1", "buyevent2"][i];
    CommandKeys(payload);
    PostbackCommands(build, cfg, senderId, payload);
  }

  /** As written, no handler ever delivers a text message: every text reply throws. */
  lemma AsWrittenSendsNoText(cfg: Config, e: MessagingEvent)
    ensures forall m | m in HandleEvent(AsWritten, cfg, e).sent :: m.body.TemplateBody?
  {
    match Classify(e)
    case MessageEvent => MessageSendsNoText(cfg, e.sender, e.message.value);
    case PostbackEvent => PostbackSendsNoText(cfg, e.sender, e.postback.value);
    case _ =>
  }

  lemma MessageSendsNoText(cfg: Config, senderId: string, message: InboundMessage)
    ensures forall m | m in ReceivedMessage(AsWritten, cfg, senderId, message).sent :: m.body.TemplateBody?
  {
  }

  lemma PostbackSendsNoText(cfg: Config, senderId: string, postback: InboundPostback)
    ensures forall m | m in ReceivedPostback(AsWritten, cfg, senderId, postback).sent :: m.body.TemplateBody?
  {
  }

  /**
   * With the two slips repaired, an event throws exactly when it is an optin
   * or account-linking event (no handler exists), a message without text or
   * a postback without payload.
   */
  lemma RepairedFaults(cfg: Config, e: MessagingEvent)
    ensures HandleEvent(Repaired, cfg, e).fault.Some? <==>
      || Classify(e) == OptinEvent
      || Classify(e) == AccountLinkingEvent
      || (Classify(e) == MessageEvent && e.message.value.text.None?)
      || (Classify(e) == PostbackEvent && e.postback.value.payload.None?)
  {
    match Classify(e)
    case MessageEvent => MessageFaultsRepaired(cfg, e.sender, e.message.value);
    case PostbackEvent => PostbackFaultsRepaired(cfg, e.sender, e.postback.value);
    case _ =>
  }

  lemma MessageFaultsRepaired(cfg: Config, senderId: string, message: InboundMessage)
    ensures ReceivedMessage(Repaired, cfg, senderId, message).fault.Some? <==> message.text.None?
  {
  }

  lemma PostbackFaultsRepaired(cfg: Config, senderId: string, postback: InboundPostback)
    ensures ReceivedPostback(Repaired, cfg, senderId, postback).fault.Some? <==> postback.payload.None?
  {
  }
}
