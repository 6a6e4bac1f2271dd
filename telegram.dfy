/** The messaging side (send_telegram_message), reduced to a sink that records
    every message handed to it, in order. */
module Telegram {

  class Sink {
    var sent: seq<string>

    constructor ()
      ensures sent == []
    {
      sent := [];
    }

    /** One outbound notification; delivery and its status code are not modelled. */
    method SendMessage(text: string)
      modifies this
      ensures sent == old(sent) + [text]
    {
      sent := sent + [text];
    }
  }
}
