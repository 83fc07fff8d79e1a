/** The static event carousel of edm.js. */
module Edm {

  import opened Messages

  const EdmImage :=
    "https://images.unsplash.com/photo-1531336542000-a8259492b550?ixlib=rb-0.3.5&ixid=eyJhcHBfaWQiOjEyMDd9&s=82e2bb59793ac56f5e5c681531f57407&auto=format&fit=crop&w=800&q=60"
  const WaterFestivalImage :=
    "https://images.unsplash.com/photo-1514525253161-7a46d19cd819?ixlib=rb-0.3.5&ixid=eyJhcHBfaWQiOjEyMDd9&s=be465b88fdf21a6e05ab522458452344&auto=format&fit=crop&w=800&q=60"

  /**
   * getEDMJSON: the two event cards, each with one postback button whose
   * payload names the event's purchase command. The server URL it is given
   * is not used.
   */
  function GetEDMJSON(serverUrl: string): (elements: seq<Element>)
    ensures |elements| == 2
    ensures elements[0].title == "EDM" && elements[1].title == "Water Festival"
    ensures forall e | e in elements :: |e.buttons| == 1 && e.buttons[0].PostbackButton?
    ensures elements[0].buttons[0].payload == "buyevent1"
    ensures elements[1].buttons[0].payload == "buyevent2"
  {
    [
      Element(
        "EDM",
        "Full Moon Party",
        "https://www.oculus.com/en-us/rift/",
        EdmImage,
        [PostbackButton("Show me the ticket type", "buyevent1")]),
      Element(
        "Water Festival",
        "JUMP JUMP",
        "https://www.oculus.com/en-us/touch/",
        WaterFestivalImage,
        [PostbackButton("Show me the ticket type", "buyevent2")])
    ]
  }

  lemma IgnoresServerUrl(u: string, v: string)
    ensures GetEDMJSON(u) == GetEDMJSON(v)
  {
  }
}
