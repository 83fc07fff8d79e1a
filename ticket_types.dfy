/**
 * The ticket-type button templates of ticket_types.js. The platform caps a
 * button template at three buttons, so the five tiers come in two
 * messages: GA, PGA and VIP from showTicketsByEvent, VVIP and Super VIP
 * from showTicketsByEvent2. Each builder hands its one message to the
 * callback (the Send API); the outcome records that hand-over.
 */
module TicketTypes {

  import opened Wrappers
  import opened Messages
  import opened Strings

  /** The titles of some buttons, in order. */
  function Titles(buttons: seq<Button>): (titles: seq<string>)
    ensures |titles| == |buttons|
    ensures forall i | 0 <= i < |buttons| :: titles[i] == buttons[i].title
  {
    if buttons == [] then [] else [buttons[0].title] + Titles(buttons[1..])
  }

  /** The amount a title shows in its closing parentheses, as in "VIP (80000)". */
  function TitleAmount(title: string): string
  {
    if title != [] && title[|title| - 1] == ')' then AfterLast(title[..|title| - 1], '(') else []
  }

  /** The start every ticket link shares: the backend's options page, queried for `eventName`. */
  function TicketLinkStem(backendServer: string, eventName: string): string
  {
    backendServer + "/options" + "?event=" + eventName + "&ticket="
  }

  /**
   * The link of a ticket button, `callbackURL + "?event=" + eventName +
   * "&ticket=...&price=..."`, with the literal tail split at its parameters.
   */
  function TicketLink(callbackURL: string, eventName: string, ticket: string, price: string): string
  {
    callbackURL + "?event=" + eventName + "&ticket=" + ticket + "&price=" + price
  }

  /**
   * A ticket button: a web_url into the options page for `eventName` whose
   * `price` parameter, the last of the link, is the amount the title shows.
   */
  predicate IsTicketButton(b: Button, backendServer: string, eventName: string)
  {
    && b.WebUrlButton?
    && TicketLinkStem(backendServer, eventName) <= b.url
    && EndsWith(b.url, "&price=" + TitleAmount(b.title))
  }

  /** The messageData of showTicketsByEvent: the first three tiers. */
  function FirstTiersMessage(recipientId: string, eventName: string, backendServer: string): (m: OutboundMessage)
    ensures m.recipient == recipientId
    ensures m.body.TemplateBody? && m.body.template.ButtonTemplate?
    ensures m.body.template.text == "Ticket Types for " + eventName
    ensures Titles(m.body.template.buttons) == ["GA (30000)", "PGA (50000)", "VIP (80000)"]
    ensures forall b | b in m.body.template.buttons :: b.WebUrlButton? && b.heightRatio.Some?
  {
    var callbackURL := backendServer + "/options";
    OutboundMessage(recipientId, TemplateBody(ButtonTemplate(
      "Ticket Types for " + eventName,
      [
        WebUrlButton(
          "GA (30000)",
          TicketLink(callbackURL, eventName, "General Access (GA)", "30000"),
          Some("full")),
        WebUrlButton(
          "PGA (50000)",
          TicketLink(callbackURL, eventName, "PGA (50000)", "50000"),
          Some("tall")),
        WebUrlButton(
          "VIP (80000)",
          TicketLink(callbackURL, eventName, "VIP (10000)", "80000"),
          Some("compact"))
      ])))
  }

  /**
   * The messageData showTicketsByEvent2 evidently means to build: the last
   * two tiers, with `callbackURL` declared as in showTicketsByEvent.
   */
  function LastTiersMessage(recipientId: string, eventName: string, backendServer: string): (m: OutboundMessage)
    ensures m.recipient == recipientId
    ensures m.body.TemplateBody? && m.body.template.ButtonTemplate?
    ensures m.body.template.text == "Ticket Types for " + eventName
    ensures Titles(m.body.template.buttons) == ["VVIP (90000)", "Super VIP (520000)"]
    ensures forall b | b in m.body.template.buttons :: b.WebUrlButton? && b.heightRatio.None?
  {
    var callbackURL := backendServer + "/options";
    OutboundMessage(recipientId, TemplateBody(ButtonTemplate(
      "Ticket Types for " + eventName,
      [
        WebUrlButton(
          "VVIP (90000)",
          TicketLink(callbackURL, eventName, "VVIP (10000)", "90000"),
          None),
        WebUrlButton(
          "Super VIP (520000)",
          TicketLink(callbackURL, eventName, "Super VIP (10000)", "520000"),
          None)
      ])))
  }

  /** showTicketsByEvent: exactly one message, the first tiers, goes to the callback. */
  function ShowTicketsByEvent(recipientId: string, eventName: string, backendServer: string): (o: Outcome)
    ensures o.fault.None? && |o.sent| == 1
    ensures o.sent[0] == FirstTiersMessage(recipientId, eventName, backendServer)
  {
    Done([FirstTiersMessage(recipientId, eventName, backendServer)])
  }

  /**
   * showTicketsByEvent2. As written, building its message reads the
   * undeclared `callbackURL`, which throws before the callback is reached:
   * nothing is sent. Repaired, it sends the last tiers.
   */
  function ShowTicketsByEvent2(build: Build, recipientId: string, eventName: string, backendServer: string): (o: Outcome)
    ensures build == AsWritten ==> o.sent == [] && o.fault == Some(Unbound("callbackURL"))
    ensures build == Repaired ==> o.fault.None? && o.sent == [LastTiersMessage(recipientId, eventName, backendServer)]
  {
    match build
    case AsWritten => Outcome([], Some(Unbound("callbackURL")))
    case Repaired => Done([LastTiersMessage(recipientId, eventName, backendServer)])
  }

  /** A web_url button built the way every ticket button is. */
  lemma TierButtonLinks(b: Button, backendServer: string, eventName: string, name: string, ticket: string, amount: string)
    requires '(' !in amount
    requires b.WebUrlButton? && b.title == name + " (" + amount + ")"
    requires b.url == TicketLink(backendServer + "/options", eventName, ticket, amount)
    ensures IsTicketButton(b, backendServer, eventName) && TitleAmount(b.title) == amount
  {
    TitleAmountOf(name, amount);
    TicketLinkShape(backendServer, eventName, ticket, amount);
  }

  lemma TitleAmountOf(name: string, amount: string)
    requires '(' !in amount
    ensures TitleAmount(name + " (" + amount + ")") == amount
  {
    var title := name + " (" + amount + ")";
    assert title[..|title| - 1] == name + " " + ['('] + amount;
    AfterLastOf(name + " ", '(', amount);
  }

  lemma TicketLinkShape(backendServer: string, eventName: string, ticket: string, amount: string)
    ensures var url := TicketLink(backendServer + "/options", eventName, ticket, amount);
            TicketLinkStem(backendServer, eventName) <= url && EndsWith(url, "&price=" + amount)
  {
    var url := TicketLink(backendServer + "/options", eventName, ticket, amount);
    var stem := TicketLinkStem(backendServer, eventName);
    assert url == (stem + ticket) + ("&price=" + amount);
    EndsWithConcat(stem + ticket, "&price=" + amount);
  }

  /** Every button of the first message is a ticket link priced as its title says. */
  lemma FirstTiersLinks(recipientId: string, eventName: string, backendServer: string)
    ensures var bs := FirstTiersMessage(recipientId, eventName, backendServer).body.template.buttons;
            && (forall b | b in bs :: IsTicketButton(b, backendServer, eventName))
            && [TitleAmount(bs[0].title), TitleAmount(bs[1].title), TitleAmount(bs[2].title)]
               == ["30000", "50000", "80000"]
  {
    GATierLink(recipientId, eventName, backendServer);
    PGATierLink(recipientId, eventName, backendServer);
    VIPTierLink(recipientId, eventName, backendServer);
  }

  lemma GATierLink(recipientId: string, eventName: string, backendServer: string)
    ensures var b := FirstTiersMessage(recipientId, eventName, backendServer).body.template.buttons[0];
            IsTicketButton(b, backendServer, eventName) && TitleAmount(b.title) == "30000"
  {
    var bs := FirstTiersMessage(recipientId, eventName, backendServer).body.template.buttons;
    TierButtonLinks(bs[0], backendServer, eventName, "GA", "General Access (GA)", "30000");
  }

  lemma PGATierLink(recipientId: string, eventName: string, backendServer: string)
    ensures var b := FirstTiersMessage(recipientId, eventName, backendServer).body.template.buttons[1];
            IsTicketButton(b, backendServer, eventName) && TitleAmount(b.title) == "50000"
  {
    var bs := FirstTiersMessage(recipientId, eventName, backendServer).body.template.buttons;
    TierButtonLinks(bs[1], backendServer, eventName, "PGA", "PGA (50000)", "50000");
  }

  lemma VIPTierLink(recipientId: string, eventName: string, backendServer: string)
    ensures var b := FirstTiersMessage(recipientId, eventName, backendServer).body.template.buttons[2];
            IsTicketButton(b, backendServer, eventName) && TitleAmount(b.title) == "80000"
  {
    var bs := FirstTiersMessage(recipientId, eventName, backendServer).body.template.buttons;
    TierButtonLinks(bs[2], backendServer, eventName, "VIP", "VIP (10000)", "80000");
  }

  /** Every button of the second message is a ticket link priced as its title says. */
  lemma LastTiersLinks(recipientId: string, eventName: string, backendServer: string)
    ensures var bs := LastTiersMessage(recipientId, eventName, backendServer).body.template.buttons;
            && (forall b | b in bs :: IsTicketButton(b, backendServer, eventName))
            && [TitleAmount(bs[0].title), TitleAmount(bs[1].title)] == ["90000", "520000"]
  {
    LastTierLink(recipientId, eventName, backendServer, 0);
    LastTierLink(recipientId, eventName, backendServer, 1);
  }

  lemma LastTierLink(recipientId: string, eventName: string, backendServer: string, i: nat)
    requires i < 2
    ensures var b := LastTiersMessage(recipientId, eventName, backendServer).body.template.buttons[i];
            IsTicketButton(b, backendServer, eventName) && TitleAmount(b.title) == ["90000", "520000"][i]
  {
    var bs := LastTiersMessage(recipientId, eventName, backendServer).body.template.buttons;
    var options := backendServer + "/options";
    if i == 0 {
      assert bs[0] == WebUrlButton("VVIP" + " (" + "90000" + ")", TicketLink(options, eventName, "VVIP (10000)", "90000"), None);
      TierButtonLinks(bs[0], backendServer, eventName, "VVIP", "VVIP (10000)", "90000");
    } else {
      assert bs[1] == WebUrlButton("Super VIP" + " (" + "520000" + ")", TicketLink(options, eventName, "Super VIP (10000)", "520000"), None);
      TierButtonLinks(bs[1], backendServer, eventName, "Super VIP", "Super VIP (10000)", "520000");
    }
  }

  /** The two messages together offer five buttons, no tier twice, at most three per message. */
  lemma TiersAcrossMessages(recipientId: string, eventName: string, backendServer: string)
    ensures var first := FirstTiersMessage(recipientId, eventName, backendServer).body.template.buttons;
            var last := LastTiersMessage(recipientId, eventName, backendServer).body.template.buttons;
            && |first| <= MaxButtons && |last| <= MaxButtons
            && |first + last| == 5
            && forall i, j | 0 <= i < j < |first + last| :: (first + last)[i].title != (first + last)[j].title
  {
    var first := FirstTiersMessage(recipientId, eventName, backendServer).body.template.buttons;
    var last := LastTiersMessage(recipientId, eventName, backendServer).body.template.buttons;
    var titles := Titles(first) + Titles(last);
    assert forall i | 0 <= i < |first + last| :: (first + last)[i].title == titles[i];
    assert titles == ["GA (30000)", "PGA (50000)", "VIP (80000)", "VVIP (90000)", "Super VIP (520000)"];
  }
}
