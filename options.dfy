/**
 * GET /options of app.js: the webview page a ticket button opens. The page
 * may only be framed by the Messenger client it was opened from, so the
 * X-Frame-Options header names the site the Referer points at.
 */
module Options {

  import opened Wrappers
  import opened Strings

  const MessengerHost := "www.messenger.com"
  const FacebookHost := "www.facebook.com"
  const MessengerFrame := "ALLOW-FROM https://www.messenger.com/"
  const FacebookFrame := "ALLOW-FROM https://www.facebook.com/"

  datatype OptionsReply =
    | Page(frameOptions: Option<string>)  // public/options.html, with the header if one was set
    | NoResponse                          // the handler returns without answering

  /**
   * The reply to GET /options for a Referer header (None when absent). A
   * missing or empty Referer is falsy and gets no answer; otherwise the page
   * is served, framed for messenger.com when the Referer mentions it, else
   * for facebook.com when that is mentioned, else with no header at all.
   */
  function ServeOptions(referer: Option<string>): (r: OptionsReply)
    ensures r.Page? <==> referer.Some? && referer.value != []
    ensures r.Page? ==>
              (r.frameOptions == Some(MessengerFrame) <==> Contains(referer.value, MessengerHost))
    ensures r.Page? ==>
              (r.frameOptions == Some(FacebookFrame) <==>
                 !Contains(referer.value, MessengerHost) && Contains(referer.value, FacebookHost))
    ensures r.Page? && r.frameOptions.Some? ==>
              r.frameOptions.value in {MessengerFrame, FacebookFrame}
  {
    if referer.None? || referer.value == [] then NoResponse
    else if Contains(referer.value, MessengerHost) then Page(Some(MessengerFrame))
    else if Contains(referer.value, FacebookHost) then Page(Some(FacebookFrame))
    else Page(None)
  }

  lemma OccursContains(s: string, sub: string, i: nat)
    requires OccursAt(s, sub, i)
    ensures Contains(s, sub)
  {
    ContainsIffOccurs(s, sub);
  }

  /** A Referer from a messenger.com page, whatever else it says, allows framing by Messenger. */
  lemma MessengerReferer(before: string, after: string)
    ensures ServeOptions(Some(before + MessengerHost + after)) == Page(Some(MessengerFrame))
  {
    var s := before + MessengerHost + after;
    assert s[|before|..|before| + |MessengerHost|] == MessengerHost;
    OccursContains(s, MessengerHost, |before|);
  }

  /** A Referer mentioning facebook.com but not messenger.com allows framing by Facebook. */
  lemma FacebookReferer(before: string, after: string)
    requires !Contains(before + FacebookHost + after, MessengerHost)
    ensures ServeOptions(Some(before + FacebookHost + after)) == Page(Some(FacebookFrame))
  {
    var s := before + FacebookHost + after;
    assert s[|before|..|before| + |FacebookHost|] == FacebookHost;
    OccursContains(s, FacebookHost, |before|);
  }
}
