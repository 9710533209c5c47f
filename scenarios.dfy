/** End-to-end runs through the background page and the content script. */
module Scenarios {
  import opened Messages
  import opened DeepgramClient
  import Background
  import Content

  /** A transcript message from the service with one alternative. */
  function Results(text: string, isFinal: bool): Inbound
  {
    Inbound(Some("Results"), None, None, Some(Channel(Some([Alternative(Some(text))]))), isFinal)
  }

  /** Tab 7 with target language "es": the session starts, the socket opens,
      one frame is forwarded, and an interim then a final "hola" arrive. The
      tab shows "hola" for 2000 ms without speech, then for 5000 ms while
      speaking ("hola", "es"). */
  lemma HolaScenario(frame: Frame)
    ensures
      var (s1, started) := Background.Start(Background.Init, 7, Some("es"), None);
      var s2 := Background.SocketOpened(s1, 0);
      var (s3, forwarded) := Background.Chunk(s2, 7, frame);
      var s4 := Background.SocketMessage(s3, 0, Results("hola", false));
      var s5 := Background.SocketMessage(s4, 0, Results("hola", true));
      var p1 := Content.Receive(Content.Fresh(true), s4.outbox[0].note);
      var p2 := Content.Receive(p1, s5.outbox[1].note);
      && started.success && forwarded.success
      && s3.sockets[0].sent == [frame]
      && s5.outbox == [TabMessage(7, Transcript("hola", Some("es"), false)),
                       TabMessage(7, Transcript("hola", Some("es"), true))]
      && p1.text == "hola" && p1.visible && p1.pendingHide == Some(2000) && p1.calls == []
      && p2.text == "hola" && p2.pendingHide == Some(5000)
      && p2.calls == [Content.SpeakCall(Content.Utterance("hola", "es"))]
  {
  }

  /** The service closes tab 3's open connection with code 1011: it starts
      the closing handshake, a chunk sent meanwhile is rejected, and the close
      event then removes the entry and tells tab 3 the close reason. */
  lemma NoAudioCloseScenario(reason: string, frame: Frame)
    requires reason != ""
    ensures
      var s1 := Background.SocketOpened(Background.Start(Background.Init, 3, Some("fr"), None).0, 0);
      var s2 := Background.SocketPeerClosing(s1, 0);
      var (s3, forwarded) := Background.Chunk(s2, 3, frame);
      var s4 := Background.SocketClosed(s3, 0, CloseEvent(1011, reason));
      && 3 in s3.table && !forwarded.success && s3.sockets[0].sent == []
      && 3 !in s4.table && s4.sockets[0].readyState == Closed
      && s4.outbox == [TabMessage(3, Error(Background.ClosedPrefix + reason))]
  {
  }

  /** An Error message mid-session notifies the tab and keeps the session, so
      a later transcript is still delivered. */
  lemma ApiErrorKeepsSession(message: string)
    ensures
      var s1 := Background.SocketOpened(Background.Start(Background.Init, 5, None, None).0, 0);
      var s2 := Background.SocketMessage(s1, 0, Inbound(Some("Error"), Some(message), Some(400), None, false));
      var s3 := Background.SocketMessage(s2, 0, Results("ok", true));
      && 5 in s3.table && s3.table == s1.table
      && s3.outbox == [TabMessage(5, Error(ApiErrorPrefix + message)), TabMessage(5, Transcript("ok", None, true))]
  {
  }
}
