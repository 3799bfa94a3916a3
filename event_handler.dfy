/** The engine's base::EventHandler: an event document and a flag that says
    whether the event went through the end of the decoding stage. */
module EventHandling {

  /** A json::Document, taken as an opaque object; only its identity matters. */
  class Document {
    constructor () { }
  }

  class EventHandler {
    /** The shared event; null stands for an empty shared_ptr. */
    var event: Document?
    /** m_isDecoded. */
    var decoded: bool

    /** Any event is accepted, an empty one too; the flag starts false. */
    constructor (event: Document?)
      ensures this.event == event && !decoded
    {
      this.event := event;
      decoded := false;
    }

    /** getEvent: the stored event itself, with nothing changed. */
    method GetEvent() returns (e: Document?)
      ensures e == event
    {
      e := event;
    }

    /** isDecoded. */
    method IsDecoded() returns (b: bool)
      ensures b == decoded
    {
      b := decoded;
    }

    /** setDecoded: the flag becomes true and stays true; the event is kept. */
    method SetDecoded()
      modifies this`decoded
      ensures decoded && event == old(event)
    {
      decoded := true;
    }
  }

  /** A handler's life: not decoded when new, decoded after setDecoded (once
      or twice), and always the same event. */
  method HandlerLifecycle(e: Document?) returns (before: bool, after: bool, again: bool, same: bool)
    ensures !before && after && again && same
  {
    var h := new EventHandler(e);
    before := h.IsDecoded();
    var first := h.GetEvent();
    h.SetDecoded();
    after := h.IsDecoded();
    h.SetDecoded();
    again := h.IsDecoded();
    var last := h.GetEvent();
    same := first == e && last == e;
  }
}
