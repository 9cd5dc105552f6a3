/** Layer 5, "Cognitive Control", of the hello-layers demo stack. Its layer
    brain takes the five message batches a layer collects per tick and answers
    with one northbound and one southbound greeting, whatever it was given. */
module Layer5 {

  datatype Option<T> = None | Some(value: T)

  /** The five message classes of the bus. */
  datatype MessageType = Control | Data | Request | Response | Telemetry

  /** The five tags a message's "type" field can hold. */
  const TypeTags: set<string> := {"control", "data", "request", "response", "telemetry"}

  /** The tag a message carries in its "type" field: the class's lower-case name. */
  function TypeName(t: MessageType): (tag: string)
    ensures tag in TypeTags
  {
    match t
    case Control => "control"
    case Data => "data"
    case Request => "request"
    case Response => "response"
    case Telemetry => "telemetry"
  }

  /** Reads a "type" tag; a tag outside the five classes is rejected. */
  function ParseType(tag: string): (r: Option<MessageType>)
    ensures r.Some? ==> TypeName(r.value) == tag
    ensures r.None? ==> tag !in TypeTags
  {
    if tag == "control" then Some(Control)
    else if tag == "data" then Some(Data)
    else if tag == "request" then Some(Request)
    else if tag == "response" then Some(Response)
    else if tag == "telemetry" then Some(Telemetry)
    else None
  }

  /** Every class's tag reads back as that class: the string encoding of the
      five classes is lossless, so distinct classes carry distinct tags. */
  lemma ParseTypeName(t: MessageType)
    ensures ParseType(TypeName(t)) == Some(t)
  {
  }

  /** A message: its class and its payload. */
  datatype Message = Message(kind: MessageType, message: string)

  datatype LayerSettings = LayerSettings(name: string, labelText: string)

  function Settings(): (s: LayerSettings)
    ensures s.name == "layer_5" && s.labelText == "Cognitive Control"
  {
    LayerSettings("layer_5", "Cognitive Control")
  }

  /** The health probe is a placeholder: always healthy. */
  function Status(): (healthy: bool)
    ensures healthy
  {
    true
  }

  /** The layer brain. The result is the pair (northbound, southbound): one
      "data" greeting going up and one "control" greeting going down. */
  function ProcessLayerMessages(control: seq<Message>, data: seq<Message>, request: seq<Message>,
                                response: seq<Message>, telemetry: seq<Message>): (r: (seq<Message>, seq<Message>))
    ensures |r.0| == 1 && TypeName(r.0[0].kind) == "data" && r.0[0].message == "hello data"
    ensures |r.1| == 1 && TypeName(r.1[0].kind) == "control" && r.1[0].message == "hello control"
  {
    ([Message(Data, "hello data")], [Message(Control, "hello control")])
  }

  /** The answer does not depend on the batches: any two calls agree, and in
      particular every call agrees with the call on five empty batches. */
  lemma ProcessLayerMessagesIgnoresInput(
    c1: seq<Message>, d1: seq<Message>, q1: seq<Message>, p1: seq<Message>, t1: seq<Message>,
    c2: seq<Message>, d2: seq<Message>, q2: seq<Message>, p2: seq<Message>, t2: seq<Message>)
    ensures ProcessLayerMessages(c1, d1, q1, p1, t1) == ProcessLayerMessages(c2, d2, q2, p2, t2)
    ensures ProcessLayerMessages(c1, d1, q1, p1, t1) == ProcessLayerMessages([], [], [], [], [])
  {
  }
}
