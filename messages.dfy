/**
 * Outbound messages as the bot hands them to the Send API, and the
 * outcome of a handler: the messages it handed over, in order, and the
 * exception (if any) that ended it.
 */
module Messages {

  import opened Wrappers

  /** A call-to-action button; the constructor is the `type` field of the JSON. */
  datatype Button =
    | PostbackButton(title: string, payload: string)
    | WebUrlButton(title: string, url: string, heightRatio: Option<string>)
    | PhoneNumberButton(title: string, number: string)

  /** One card of a generic template. */
  datatype Element = Element(
    title: string,
    subtitle: string,
    itemUrl: string,
    imageUrl: string,
    buttons: seq<Button>)

  datatype Template =
    | GenericTemplate(elements: seq<Element>)
    | ButtonTemplate(text: string, buttons: seq<Button>)

  /** The `message` object: plain text or a template attachment. */
  datatype Body = TextBody(text: string) | TemplateBody(template: Template)

  /** `{recipient: {id}, message: {...}}`, the argument of callSendAPI. */
  datatype OutboundMessage = OutboundMessage(recipient: string, body: Body)

  /** The platform caps the buttons of a template (and of a generic card) at three. */
  const MaxButtons := 3

  predicate WellFormed(m: OutboundMessage)
  {
    match m.body
    case TextBody(_) => true
    case TemplateBody(GenericTemplate(elements)) =>
      |elements| >= 1 && forall e | e in elements :: 1 <= |e.buttons| <= MaxButtons
    case TemplateBody(ButtonTemplate(_, buttons)) =>
      1 <= |buttons| <= MaxButtons
  }

  /** The exceptions the handlers can raise. */
  datatype Fault =
    | MissingText            // `message.text.replace` with no text: a TypeError
    | MissingPayload         // `payload.replace` with no payload: a TypeError
    | Unbound(name: string)  // an identifier nothing declares: a ReferenceError

  /**
   * What a handler did: `sent` are the messages handed to the Send API, in
   * order; `fault` is the exception it raised after them, if any. A send is
   * fire-and-forget, so a later exception does not take it back.
   */
  datatype Outcome = Outcome(sent: seq<OutboundMessage>, fault: Option<Fault>)

  function Done(sent: seq<OutboundMessage>): Outcome
  {
    Outcome(sent, None)
  }

  /** Run `a`, then `b` unless `a` raised. */
  function Then(a: Outcome, b: Outcome): Outcome
  {
    if a.fault.Some? then a else Outcome(a.sent + b.sent, b.fault)
  }

  lemma ThenAssociative(a: Outcome, b: Outcome, c: Outcome)
    ensures Then(Then(a, b), c) == Then(a, Then(b, c))
  {
  }

  lemma ThenUnit(a: Outcome)
    ensures Then(Done([]), a) == a
    ensures Then(a, Done([])) == a
  {
  }

  /**
   * Which of the two evident slips of the source is in force. `AsWritten`
   * is the code: `sendTextMessage` is never defined, and
   * showTicketsByEvent2 reads a `callbackURL` it does not declare.
   * `Repaired` binds both as their callers evidently expect.
   */
  datatype Build = AsWritten | Repaired

  /** Outcomes run one after another: each runs only if none before it threw. */
  function Chain(os: seq<Outcome>): Outcome
  {
    if os == [] then Done([]) else Then(os[0], Chain(os[1..]))
  }

  /** All the messages of some outcomes, concatenated in order. */
  function AllSent(os: seq<Outcome>): seq<OutboundMessage>
  {
    if os == [] then [] else os[0].sent + AllSent(os[1..])
  }

  lemma {:induction false} ChainAppend(a: seq<Outcome>, b: seq<Outcome>)
    ensures Chain(a + b) == Then(Chain(a), Chain(b))
  {
    if a == [] {
      assert a + b == b;
    } else {
      assert (a + b)[0] == a[0] && (a + b)[1..] == a[1..] + b;
      ChainAppend(a[1..], b);
      ThenAssociative(a[0], Chain(a[1..]), Chain(b));
    }
  }

  /** When nothing throws, the chain hands over every outcome's messages. */
  lemma {:induction false} ChainWithoutFault(os: seq<Outcome>)
    requires forall i | 0 <= i < |os| :: os[i].fault.None?
    ensures Chain(os) == Done(AllSent(os))
  {
    if os != [] {
      assert forall i | 0 <= i < |os[1..]| :: os[1..][i] == os[i + 1];
      ChainWithoutFault(os[1..]);
    }
  }

  /**
   * When outcome `k` is the first that threw, the chain hands over the
   * messages of the outcomes before it and its own, and ends with its fault.
   */
  lemma {:induction false} ChainFirstFault(os: seq<Outcome>, k: nat)
    requires k < |os| && os[k].fault.Some?
    requires forall j | 0 <= j < k :: os[j].fault.None?
    ensures Chain(os) == Outcome(AllSent(os[..k]) + os[k].sent, os[k].fault)
  {
    if k == 0 {
      assert os[..0] == [];
    } else {
      var rest := os[1..];
      assert rest[k - 1] == os[k];
      assert forall j | 0 <= j < k - 1 :: rest[j] == os[j + 1];
      ChainFirstFault(rest, k - 1);
      assert os[..k][0] == os[0] && os[..k][1..] == rest[..k - 1];
    }
  }

  /**
   * A chain completes exactly when none of its outcomes threw, and then it
   * hands over all their messages.
   */
  lemma ChainCompletes(os: seq<Outcome>)
    ensures Chain(os).fault.None? <==> forall i | 0 <= i < |os| :: os[i].fault.None?
    ensures Chain(os).fault.None? ==> Chain(os) == Done(AllSent(os))
  {
    if forall i | 0 <= i < |os| :: os[i].fault.None? {
      ChainWithoutFault(os);
    } else {
      var k :| 0 <= k < |os| && os[k].fault.Some?;
      while exists j | 0 <= j < k :: os[j].fault.Some?
        invariant 0 <= k < |os| && os[k].fault.Some?
        decreases k
      {
        var earlier :| 0 <= earlier < k && os[earlier].fault.Some?;
        k := earlier;
      }
      ChainFirstFault(os, k);
    }
  }

  /** A chain hands over a prefix of all its outcomes' messages. */
  lemma {:induction false} ChainSentPrefix(os: seq<Outcome>)
    ensures Chain(os).sent <= AllSent(os)
  {
    if os != [] {
      ChainSentPrefix(os[1..]);
    }
  }
}
