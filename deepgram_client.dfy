/** The recognition client of deepgram-client.js: the streaming socket it opens
    for one tab, with the fixed query parameters, and the classification of the
    service's inbound messages into at most one notification for that tab. */
module DeepgramClient {
  import opened Messages

  // ---------------------------------------------------------------------
  // Connection parameters
  // ---------------------------------------------------------------------

  /** The one address every connection is opened with: raw 16-bit PCM
      (`linear16`) at 16 kHz, one channel, interim results on and endpoint
      detection off, so that the service does not close on brief silence. */
  const ListenUrl: string :=
    "wss://api.deepgram.com/v1/listen?encoding=linear16&sample_rate=16000&channels=1&interim_results=true&endpointing=false"

  // ---------------------------------------------------------------------
  // The socket
  // ---------------------------------------------------------------------

  datatype ReadyState = Connecting | Open | Closing | Closed

  /** One socket created by `initDeepgramConnection`: the tab and target
      language its handlers were bound to, the address, whether a close/error
      callback was supplied, its ready state, and every frame sent on it. */
  datatype Socket = Socket(
    tabId: TabId,
    targetLanguage: Option<string>,
    url: string,
    callbackSupplied: bool,
    readyState: ReadyState,
    sent: seq<Frame>)

  /** `initDeepgramConnection(tabId, targetLanguage, callback)`: a new socket,
      still connecting, addressed with the fixed parameters. */
  function Connect(tab: TabId, lang: Option<string>, callbackSupplied: bool): (r: Socket)
    ensures r.tabId == tab && r.targetLanguage == lang && r.callbackSupplied == callbackSupplied
    ensures r.url == ListenUrl && r.readyState == Connecting && r.sent == []
    ensures Live(r)
  {
    Socket(tab, lang, ListenUrl, callbackSupplied, Connecting, [])
  }

  predicate Live(k: Socket)
  {
    k.readyState == Connecting || k.readyState == Open
  }

  /** `socket.close()`: a connecting or open socket starts its closing
      handshake; on a closing or closed socket it does nothing. The close
      event itself comes later, from the host. */
  function Close(k: Socket): (r: Socket)
    ensures !Live(r)
    ensures Live(k) ==> r.readyState == Closing
    ensures !Live(k) ==> r == k
    ensures r.(readyState := k.readyState) == k
  {
    if Live(k) then k.(readyState := Closing) else k
  }

  /** `socket.send(frame)` on an open socket. */
  function Send(k: Socket, f: Frame): (r: Socket)
    requires k.readyState == Open
    ensures r.sent == k.sent + [f] && |r.sent| == |k.sent| + 1
    ensures r.(sent := k.sent) == k
  {
    k.(sent := k.sent + [f])
  }

  // ---------------------------------------------------------------------
  // Inbound messages (already parsed from JSON)
  // ---------------------------------------------------------------------

  datatype Alternative = Alternative(transcript: Option<string>)

  datatype Channel = Channel(alternatives: Option<seq<Alternative>>)

  /** The fields of a parsed service message the client looks at; an absent
      field is `None`. `isFinal` is the truthiness of `is_final`. */
  datatype Inbound = Inbound(
    kind: Option<string>,
    message: Option<string>,
    code: Option<int>,
    channel: Option<Channel>,
    isFinal: bool)

  /** `data.channel?.alternatives?.[0]?.transcript` */
  function FirstTranscript(data: Inbound): (t: Option<string>)
    ensures t.Some? ==> data.channel.Some? && data.channel.value.alternatives.Some?
                        && |data.channel.value.alternatives.value| > 0
                        && data.channel.value.alternatives.value[0].transcript == t
    // and a first alternative that is present is always the one read
    ensures data.channel.Some? && data.channel.value.alternatives.Some?
            && |data.channel.value.alternatives.value| > 0
            ==> t == data.channel.value.alternatives.value[0].transcript
  {
    match data.channel
    case None => None
    case Some(c) =>
      match c.alternatives
      case None => None
      case Some(alts) => if |alts| == 0 then None else alts[0].transcript
  }

  /** How a template literal prints a field that may be absent. */
  function Printed(v: Option<string>): string
  {
    match v
    case Some(s) => s
    case None => "undefined"
  }

  /** Kinds the client drops without a notification. */
  predicate Ignored(data: Inbound)
  {
    data.kind == Some("Metadata") || data.kind == Some("UtteranceEnd")
  }

  predicate IsErrorKind(data: Inbound)
  {
    data.kind == Some("Error")
  }

  /** A transcript that is present and not empty. */
  predicate Meaningful(t: Option<string>)
  {
    t.Some? && |t.value| > 0
  }

  const ApiErrorPrefix: string := "Deepgram API Error: "

  /** The socket's `onmessage` handler for a connection bound to `tab` and
      `lang`: the one message it sends to the tab, if any. */
  function OnMessage(tab: TabId, lang: Option<string>, data: Inbound): (r: Option<TabMessage>)
    // every notification goes to the connection's own tab
    ensures r.Some? ==> r.value.tab == tab
    // Metadata and UtteranceEnd are dropped
    ensures Ignored(data) ==> r.None?
    // an Error message, and only an Error message, yields an error notification
    ensures (r.Some? && r.value.note.Error?) <==> IsErrorKind(data)
    ensures IsErrorKind(data) ==> r == Some(TabMessage(tab, Error(ApiErrorPrefix + Printed(data.message))))
    // any other message yields a transcript exactly when its first alternative has text
    ensures (r.Some? && r.value.note.Transcript?)
            <==> !Ignored(data) && !IsErrorKind(data) && Meaningful(FirstTranscript(data))
    ensures r.Some? && r.value.note.Transcript? ==>
              r.value.note.text == FirstTranscript(data).value
              && r.value.note.targetLanguage == lang
              && r.value.note.isFinal == data.isFinal
    ensures r.Some? ==> !r.value.note.Other?
  {
    if data.kind == Some("Metadata") then None
    else if data.kind == Some("UtteranceEnd") then None
    else if data.kind == Some("Error") then
      Some(TabMessage(tab, Error(ApiErrorPrefix + Printed(data.message))))
    else
      var transcript := FirstTranscript(data);
      if transcript.Some? && |transcript.value| > 0 then
        Some(TabMessage(tab, Transcript(transcript.value, lang, data.isFinal)))
      else None
  }

  /** The close event as the handler receives it. */
  datatype CloseEvent = CloseEvent(code: int, reason: string)
}
