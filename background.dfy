/** The background page of background.js: the per-tab session table, the three
    commands that act on it, the close/error callback each session registers,
    and the host events (socket opened, message, error, close) that drive the
    sockets it created. */
module Background {
  import opened Messages
  import opened DeepgramClient

  const StartCommand: string := "start-deepgram-session"
  const ChunkCommand: string := "audio-chunk"
  const StopCommand: string := "stop-deepgram-session"

  const NotReady: string := "Deepgram socket not ready or connection closed."
  const NoSession: string := "No active interpretation for this tab."
  const ClosedPrefix: string := "Deepgram connection closed unexpectedly: "
  const NoAudio: string := "No audio"

  /** A socket is named by its position in the order of creation. */
  type SocketId = nat

  /** An entry of `activeDeepgramConnections`: `{ socket, tabId }`. */
  datatype Connection = Connection(socket: SocketId, tabId: TabId)

  /** The background page's state: the session table, every socket created so
      far (closed ones included, since their handlers can still fire), and the
      messages sent to tabs, oldest first. */
  datatype State = State(
    table: map<TabId, Connection>,
    sockets: seq<Socket>,
    outbox: seq<TabMessage>)

  const Init: State := State(map[], [], [])

  /** Every entry names a socket that exists. */
  predicate Linked(s: State)
  {
    forall t :: t in s.table ==> s.table[t].socket < |s.sockets|
  }

  function SocketOf(s: State, t: TabId): Socket
    requires Linked(s) && t in s.table
  {
    s.sockets[s.table[t].socket]
  }

  /** What the router maintains: an entry is keyed by its own tab, names the
      newest socket created for that tab, and that socket has not yet fired its
      close event (it may be closing, when the service began the closing
      handshake); every socket has the fixed address and a callback, and a
      socket that has not opened yet has carried no audio. */
  ghost predicate Consistent(s: State)
  {
    && Linked(s)
    && (forall t :: t in s.table ==>
          s.table[t].tabId == t && SocketOf(s, t).tabId == t && SocketOf(s, t).readyState != Closed)
    && (forall t, j :: t in s.table && s.table[t].socket < j < |s.sockets| ==> s.sockets[j].tabId != t)
    && (forall k :: k in s.sockets ==>
          k.url == ListenUrl && k.callbackSupplied && (k.readyState == Connecting ==> k.sent == []))
  }

  /** Entries of tabs other than `tab` are the same in `s` and `r`. */
  ghost predicate OthersKept(s: State, r: State, tab: TabId)
  {
    forall t :: t != tab ==> (t in r.table <==> t in s.table) && (t in s.table ==> r.table[t] == s.table[t])
  }

  /** Sockets other than `id` are the same in `s` and `r`, and none was removed. */
  ghost predicate SocketsKept(s: State, r: State, id: int)
  {
    |s.sockets| <= |r.sockets| && forall i :: 0 <= i < |s.sockets| && i != id ==> r.sockets[i] == s.sockets[i]
  }

  /** The id of the socket `tab`'s entry names, or -1 when there is none. */
  function EntryId(s: State, tab: TabId): int
  {
    if tab in s.table then s.table[tab].socket else -1
  }

  // ---------------------------------------------------------------------
  // Commands
  // ---------------------------------------------------------------------

  /** Close the socket of `tab`'s entry and delete the entry, if there is one. */
  function Retire(s: State, tab: TabId): (r: State)
    requires Linked(s)
    ensures Linked(r) && tab !in r.table && r.outbox == s.outbox && |r.sockets| == |s.sockets|
    ensures tab in s.table ==> !Live(r.sockets[s.table[tab].socket])
    // close() was called on it: closing, its close event still to come
    ensures tab in s.table ==> r.sockets[s.table[tab].socket] == Close(s.sockets[s.table[tab].socket])
    ensures OthersKept(s, r, tab) && SocketsKept(s, r, EntryId(s, tab))
  {
    if tab in s.table then
      var id := s.table[tab].socket;
      s.(sockets := s.sockets[id := Close(s.sockets[id])], table := s.table - {tab})
    else s
  }

  /** `start-deepgram-session`: retire any session of `tab`, then open a new
      connection; `thrown` is the message of the exception
      `initDeepgramConnection` raised, if it raised one. */
  function Start(s: State, tab: TabId, lang: Option<string>, thrown: Option<string>): (r: (State, Reply))
    requires Linked(s)
    ensures Linked(r.0) && r.0.outbox == s.outbox
    ensures OthersKept(s, r.0, tab) && SocketsKept(s, r.0, EntryId(s, tab))
    // the previous socket of the tab, if any, has had close() called
    ensures tab in s.table ==> !Live(r.0.sockets[s.table[tab].socket])
    ensures tab in s.table ==> r.0.sockets[s.table[tab].socket] == Close(s.sockets[s.table[tab].socket])
    ensures r.1.success <==> thrown.None?
    // on failure the old entry is gone and nothing replaced it
    ensures thrown.Some? ==> r.1.error == thrown && tab !in r.0.table && |r.0.sockets| == |s.sockets|
    // on success the table holds exactly the new, still connecting, socket
    ensures thrown.None? ==>
              && r.1.error == None
              && |r.0.sockets| == |s.sockets| + 1
              && tab in r.0.table && r.0.table[tab] == Connection(|s.sockets|, tab)
              && r.0.sockets[|s.sockets|] == Connect(tab, lang, true)
  {
    var cleared := Retire(s, tab);
    match thrown
    case Some(e) => (cleared, Reply(false, Some(e)))
    case None =>
      var id := |cleared.sockets|;
      var started := cleared.(sockets := cleared.sockets + [Connect(tab, lang, true)],
                              table := cleared.table[tab := Connection(id, tab)]);
      (started, Reply(true, None))
  }

  /** `audio-chunk`: send the decoded frame on `tab`'s socket if it is open. */
  function Chunk(s: State, tab: TabId, frame: Frame): (r: (State, Reply))
    requires Linked(s)
    ensures r.0.table == s.table && r.0.outbox == s.outbox && |r.0.sockets| == |s.sockets|
    ensures r.1.success <==> tab in s.table && SocketOf(s, tab).readyState == Open
    // sent exactly once, on the tab's socket, and nothing else about it changes
    ensures r.1.success ==>
              && r.1.error == None
              && r.0.sockets[s.table[tab].socket] == SocketOf(s, tab).(sent := SocketOf(s, tab).sent + [frame])
              && SocketsKept(s, r.0, s.table[tab].socket)
    // otherwise the frame is dropped, not kept for later
    ensures !r.1.success ==> r.0 == s && r.1.error == Some(NotReady)
  {
    if tab in s.table && s.sockets[s.table[tab].socket].readyState == Open then
      var id := s.table[tab].socket;
      (s.(sockets := s.sockets[id := Send(s.sockets[id], frame)]), Reply(true, None))
    else
      (s, Reply(false, Some(NotReady)))
  }

  /** `stop-deepgram-session`: close and delete `tab`'s session, or fail. */
  function Stop(s: State, tab: TabId): (r: (State, Reply))
    requires Linked(s)
    ensures Linked(r.0) && tab !in r.0.table && r.0.outbox == s.outbox && |r.0.sockets| == |s.sockets|
    ensures r.1.success <==> tab in s.table
    ensures r.1.success ==> r.1.error == None && !Live(r.0.sockets[s.table[tab].socket])
    ensures r.1.success ==> r.0.sockets[s.table[tab].socket] == Close(s.sockets[s.table[tab].socket])
    ensures !r.1.success ==> r.0 == s && r.1.error == Some(NoSession)
    ensures OthersKept(s, r.0, tab) && SocketsKept(s, r.0, EntryId(s, tab))
  {
    if tab in s.table then (Retire(s, tab), Reply(true, None))
    else (s, Reply(false, Some(NoSession)))
  }

  /** A runtime message sent to the background page; fields a command does not
      use are ignored. `chunk` is the frame after Base64 decoding. */
  datatype Command = Command(command: string, tabId: TabId, targetLanguage: Option<string>, chunk: Frame)

  predicate Recognised(msg: Command)
  {
    msg.command == StartCommand || msg.command == ChunkCommand || msg.command == StopCommand
  }

  /** The `chrome.runtime.onMessage` listener: the new state and the reply,
      if it sends one. */
  function HandleCommand(s: State, msg: Command, thrown: Option<string>): (r: (State, Option<Reply>))
    requires Linked(s)
    ensures Linked(r.0) && r.0.outbox == s.outbox
    // a recognised command always replies; any other message gets no reply and changes nothing
    ensures r.1.Some? <==> Recognised(msg)
    ensures !Recognised(msg) ==> r.0 == s
    // each command runs its own operation, and the reply is that operation's
    ensures msg.command == StartCommand ==>
              var (next, reply) := Start(s, msg.tabId, msg.targetLanguage, thrown); r == (next, Some(reply))
    ensures msg.command == ChunkCommand ==>
              var (next, reply) := Chunk(s, msg.tabId, msg.chunk); r == (next, Some(reply))
    ensures msg.command == StopCommand ==>
              var (next, reply) := Stop(s, msg.tabId); r == (next, Some(reply))
    // only the entry and the socket of msg.tabId are touched
    ensures OthersKept(s, r.0, msg.tabId) && SocketsKept(s, r.0, EntryId(s, msg.tabId))
  {
    if msg.command == StartCommand then
      var (next, reply) := Start(s, msg.tabId, msg.targetLanguage, thrown);
      (next, Some(reply))
    else if msg.command == ChunkCommand then
      var (next, reply) := Chunk(s, msg.tabId, msg.chunk);
      (next, Some(reply))
    else if msg.command == StopCommand then
      var (next, reply) := Stop(s, msg.tabId);
      (next, Some(reply))
    else
      (s, None)
  }

  // ---------------------------------------------------------------------
  // The close/error callback and the socket's handlers
  // ---------------------------------------------------------------------

  /** `event.reason || "No audio"`; an error event has no reason. */
  function ReasonText(reason: Option<string>): (r: string)
    ensures reason.Some? && reason.value != "" ==> r == reason.value
    ensures reason.None? || reason.value == "" ==> r == NoAudio
    ensures |r| > 0
  {
    if reason.Some? && reason.value != "" then reason.value else NoAudio
  }

  /** The callback registered for a session of `tab`: act only while `tab`
      still has an entry (whichever socket that entry names). */
  function CloseOrError(s: State, tab: TabId, reason: Option<string>): (r: State)
    requires Linked(s)
    ensures Linked(r) && tab !in r.table && r.sockets == s.sockets
    ensures tab in s.table ==> r.outbox == s.outbox + [TabMessage(tab, Error(ClosedPrefix + ReasonText(reason)))]
    ensures tab !in s.table ==> r == s
    ensures OthersKept(s, r, tab)
  {
    if tab in s.table then
      s.(table := s.table - {tab},
         outbox := s.outbox + [TabMessage(tab, Error(ClosedPrefix + ReasonText(reason)))])
    else s
  }

  /** The host opens a connecting socket. */
  function SocketOpened(s: State, id: SocketId): (r: State)
    requires id < |s.sockets| && s.sockets[id].readyState == Connecting
    ensures r.table == s.table && r.outbox == s.outbox && SocketsKept(s, r, id) && |r.sockets| == |s.sockets|
    ensures r.sockets[id] == s.sockets[id].(readyState := Open)
  {
    s.(sockets := s.sockets[id := s.sockets[id].(readyState := Open)])
  }

  /** The service starts the closing handshake on open socket `id`: the
      socket becomes closing without `close()` being called; its close event
      comes later. */
  function SocketPeerClosing(s: State, id: SocketId): (r: State)
    requires id < |s.sockets| && s.sockets[id].readyState == Open
    ensures r.table == s.table && r.outbox == s.outbox && SocketsKept(s, r, id) && |r.sockets| == |s.sockets|
    ensures r.sockets[id] == s.sockets[id].(readyState := Closing)
  {
    s.(sockets := s.sockets[id := s.sockets[id].(readyState := Closing)])
  }

  /** A message arrives on socket `id`: its `onmessage` handler, bound to the
      tab and language the socket was created for, sends at most one message,
      whether or not the table still names the socket. */
  function SocketMessage(s: State, id: SocketId, data: Inbound): (r: State)
    requires id < |s.sockets|
    ensures r.table == s.table && r.sockets == s.sockets
    ensures |s.outbox| <= |r.outbox| <= |s.outbox| + 1 && r.outbox[..|s.outbox|] == s.outbox
    ensures |r.outbox| > |s.outbox| ==>
              && r.outbox[|s.outbox|].tab == s.sockets[id].tabId
              && (r.outbox[|s.outbox|].note.Transcript? ==>
                    r.outbox[|s.outbox|].note.targetLanguage == s.sockets[id].targetLanguage)
    // what is added is exactly the handler's notification, if it yields one
    ensures r.outbox == s.outbox + match OnMessage(s.sockets[id].tabId, s.sockets[id].targetLanguage, data)
                                   case None => []
                                   case Some(m) => [m]
  {
    var k := s.sockets[id];
    match OnMessage(k.tabId, k.targetLanguage, data)
    case None => s
    case Some(m) => s.(outbox := s.outbox + [m])
  }

  /** An error event on socket `id`: its `onerror` handler calls the callback
      once, with an event that has no reason. */
  function SocketError(s: State, id: SocketId): (r: State)
    requires Linked(s) && id < |s.sockets|
    ensures r.sockets == s.sockets
    ensures s.sockets[id].callbackSupplied ==> r == CloseOrError(s, s.sockets[id].tabId, None)
    ensures !s.sockets[id].callbackSupplied ==> r == s
  {
    var k := s.sockets[id];
    if k.callbackSupplied then CloseOrError(s, k.tabId, None) else s
  }

  /** The close event of socket `id`, whatever its code: the socket is closed
      and its `onclose` handler calls the callback once with the event. */
  function SocketClosed(s: State, id: SocketId, ev: CloseEvent): (r: State)
    requires Linked(s) && id < |s.sockets|
    ensures |r.sockets| == |s.sockets| && r.sockets[id].readyState == Closed && SocketsKept(s, r, id)
    ensures var shut := s.(sockets := s.sockets[id := s.sockets[id].(readyState := Closed)]);
            r == if s.sockets[id].callbackSupplied then CloseOrError(shut, s.sockets[id].tabId, Some(ev.reason))
                 else shut
  {
    var k := s.sockets[id];
    var shut := s.(sockets := s.sockets[id := k.(readyState := Closed)]);
    if k.callbackSupplied then CloseOrError(shut, k.tabId, Some(ev.reason)) else shut
  }

  // ---------------------------------------------------------------------
  // Runs of events
  // ---------------------------------------------------------------------

  /** Everything that can happen to the background page. */
  datatype Event =
    | Request(msg: Command, thrown: Option<string>)
    | OpenFired(id: SocketId)
    | PeerClosing(id: SocketId)
    | MessageFired(id: SocketId, data: Inbound)
    | ErrorFired(id: SocketId)
    | CloseFired(id: SocketId, close: CloseEvent)

  /** What the host guarantees about socket events: they concern a socket that
      exists, open fires only on a connecting socket, the service can start
      the closing handshake only on an open socket, messages are dispatched
      only while the socket is open, and nothing fires after the close event. */
  predicate Deliverable(s: State, e: Event)
  {
    match e
    case Request(_, _) => true
    case OpenFired(id) => id < |s.sockets| && s.sockets[id].readyState == Connecting
    case PeerClosing(id) => id < |s.sockets| && s.sockets[id].readyState == Open
    case MessageFired(id, _) => id < |s.sockets| && s.sockets[id].readyState == Open
    case ErrorFired(id) => id < |s.sockets| && s.sockets[id].readyState != Closed
    case CloseFired(id, _) => id < |s.sockets| && s.sockets[id].readyState != Closed
  }

  function Step(s: State, e: Event): State
    requires Linked(s)
  {
    if !Deliverable(s, e) then s
    else match e
      case Request(msg, thrown) => HandleCommand(s, msg, thrown).0
      case OpenFired(id) => SocketOpened(s, id)
      case PeerClosing(id) => SocketPeerClosing(s, id)
      case MessageFired(id, data) => SocketMessage(s, id, data)
      case ErrorFired(id) => SocketError(s, id)
      case CloseFired(id, ev) => SocketClosed(s, id, ev)
  }

  lemma StartKeepsConsistent(s: State, tab: TabId, lang: Option<string>, thrown: Option<string>)
    requires Consistent(s)
    ensures Consistent(Start(s, tab, lang, thrown).0)
  {
  }

  lemma ChunkKeepsConsistent(s: State, tab: TabId, frame: Frame)
    requires Consistent(s)
    ensures Consistent(Chunk(s, tab, frame).0)
  {
  }

  lemma StopKeepsConsistent(s: State, tab: TabId)
    requires Consistent(s)
    ensures Consistent(Stop(s, tab).0)
  {
  }

  lemma CloseOrErrorKeepsConsistent(s: State, tab: TabId, reason: Option<string>)
    requires Consistent(s)
    ensures Consistent(CloseOrError(s, tab, reason))
  {
  }

  lemma SocketClosedKeepsConsistent(s: State, id: SocketId, ev: CloseEvent)
    requires Consistent(s) && id < |s.sockets|
    ensures Consistent(SocketClosed(s, id, ev))
  {
  }

  lemma StepKeepsConsistent(s: State, e: Event)
    requires Consistent(s)
    ensures Consistent(Step(s, e))
  {
    if Deliverable(s, e) {
      match e
      case Request(msg, thrown) =>
        if msg.command == StartCommand {
          StartKeepsConsistent(s, msg.tabId, msg.targetLanguage, thrown);
        } else if msg.command == ChunkCommand {
          ChunkKeepsConsistent(s, msg.tabId, msg.chunk);
        } else if msg.command == StopCommand {
          StopKeepsConsistent(s, msg.tabId);
        }
      case OpenFired(id) =>
      case PeerClosing(id) =>
      case MessageFired(id, data) =>
      case ErrorFired(id) =>
        CloseOrErrorKeepsConsistent(s, s.sockets[id].tabId, None);
      case CloseFired(id, ev) =>
        SocketClosedKeepsConsistent(s, id, ev);
    }
  }

  /** The state after a run of events. */
  function Run(s: State, es: seq<Event>): State
    requires Consistent(s)
    decreases |es|
  {
    if es == [] then s
    else
      StepKeepsConsistent(s, es[0]);
      Run(Step(s, es[0]), es[1..])
  }

  /** Whatever commands and socket events arrive, in whatever order, the
      table keeps at most one session per tab, names the newest socket of
      that tab, and never holds a socket whose close event has fired. */
  lemma {:induction false} RunKeepsConsistent(s: State, es: seq<Event>)
    requires Consistent(s)
    ensures Consistent(Run(s, es))
    decreases |es|
  {
    if es != [] {
      StepKeepsConsistent(s, es[0]);
      RunKeepsConsistent(Step(s, es[0]), es[1..]);
    }
  }

  /** In every run from the initial state, every connection ever opened uses
      the fixed listen address. */
  lemma EverySocketListens(es: seq<Event>)
    ensures Consistent(Init)
    ensures forall k :: k in Run(Init, es).sockets ==> k.url == ListenUrl
  {
    RunKeepsConsistent(Init, es);
  }

  // ---------------------------------------------------------------------
  // Consequences of the presence-only guard
  // ---------------------------------------------------------------------

  /** Starting a session twice for one tab, then letting the first socket's
      late close event arrive: the guard finds the second session's entry and
      deletes it, notifies the tab, and leaves the second socket connecting
      with no entry naming it. */
  lemma ReplacedCloseDropsSuccessor(s: State, tab: TabId, lang1: Option<string>, lang2: Option<string>, ev: CloseEvent)
    requires Consistent(s)
    ensures var s1 := Start(s, tab, lang1, None).0;
            var first := s1.table[tab].socket;
            var s2 := Start(s1, tab, lang2, None).0;
            var s3 := SocketClosed(s2, first, ev);
            && first + 1 < |s2.sockets|
            && s2.table[tab].socket == first + 1
            && tab !in s3.table
            && s3.sockets[first + 1].readyState == Connecting
            && s3.outbox == s2.outbox + [TabMessage(tab, Error(ClosedPrefix + ReasonText(Some(ev.reason))))]
  {
  }

  /** The orphan left by `ReplacedCloseDropsSuccessor` is never closed: after a
      third start for the tab, the orphan and the new socket are both live for
      that tab, and the orphan's handler still notifies the tab once it opens,
      so the tab is not kept to one live connection. */
  lemma OrphanOutlivesRestart(s: State, tab: TabId, lang1: Option<string>, lang2: Option<string>,
                              lang3: Option<string>, ev: CloseEvent, data: Inbound)
    requires Consistent(s)
    ensures var n := |s.sockets|;
            var s1 := Start(s, tab, lang1, None).0;
            var s2 := Start(s1, tab, lang2, None).0;
            var s3 := SocketClosed(s2, n, ev);
            var s4 := Start(s3, tab, lang3, None).0;
            && |s4.sockets| == n + 3
            && Live(s4.sockets[n + 1]) && s4.sockets[n + 1].tabId == tab
            && Live(s4.sockets[n + 2]) && s4.sockets[n + 2].tabId == tab
            && s4.table[tab].socket == n + 2
            && (OnMessage(tab, lang2, data).Some? ==>
                  SocketMessage(SocketOpened(s4, n + 1), n + 1, data).outbox
                  == s4.outbox + [OnMessage(tab, lang2, data).value])
  {
  }

  /** When that orphan finally closes, the presence-only guard deletes the
      entry of the next session, whose socket is still live. */
  lemma OrphanCloseKillsNext(s: State, tab: TabId, lang1: Option<string>, lang2: Option<string>,
                             lang3: Option<string>, ev: CloseEvent, ev2: CloseEvent)
    requires Consistent(s)
    ensures var n := |s.sockets|;
            var s1 := Start(s, tab, lang1, None).0;
            var s2 := Start(s1, tab, lang2, None).0;
            var s3 := SocketClosed(s2, n, ev);
            var s4 := Start(s3, tab, lang3, None).0;
            var s5 := SocketClosed(s4, n + 1, ev2);
            && |s5.sockets| == n + 3
            && tab !in s5.table
            && Live(s5.sockets[n + 2]) && s5.sockets[n + 2].tabId == tab
            && s5.outbox == s4.outbox + [TabMessage(tab, Error(ClosedPrefix + ReasonText(Some(ev2.reason))))]
  {
  }

  /** After an explicit stop, the stopped socket's close event finds no entry
      and changes nothing but the socket's own state. */
  lemma StoppedCloseSuppressed(s: State, tab: TabId, ev: CloseEvent)
    requires Consistent(s) && tab in s.table
    ensures var s1 := Stop(s, tab).0;
            var s2 := SocketClosed(s1, s.table[tab].socket, ev);
            s2.table == s1.table && s2.outbox == s1.outbox
  {
  }

  /** The browser fires error and then close when a connection fails: the tab
      is told once, with "No audio", and the close callback is suppressed. */
  lemma ErrorThenCloseNotifiesOnce(s: State, tab: TabId, ev: CloseEvent)
    requires Consistent(s) && tab in s.table
    ensures var id := s.table[tab].socket;
            var s2 := SocketClosed(SocketError(s, id), id, ev);
            && tab !in s2.table
            && s2.outbox == s.outbox + [TabMessage(tab, Error(ClosedPrefix + NoAudio))]
  {
  }

  /** Stopping twice in a row: the second stop fails. */
  lemma SecondStopFails(s: State, tab: TabId)
    requires Linked(s)
    ensures Stop(Stop(s, tab).0, tab).1 == Reply(false, Some(NoSession))
  {
  }

  /** Start replies success while the new socket is still connecting, so a
      frame sent before the open event is rejected and not sent. */
  lemma ChunkBeforeOpenRejected(s: State, tab: TabId, lang: Option<string>, frame: Frame)
    requires Linked(s)
    ensures var (s1, started) := Start(s, tab, lang, None);
            && started.success
            && Chunk(s1, tab, frame) == (s1, Reply(false, Some(NotReady)))
  {
  }

  /** Once the service has begun closing an open session's socket, the entry
      is still there but an audio chunk is rejected until the close event
      deletes it. */
  lemma PeerClosingRejectsChunk(s: State, tab: TabId, frame: Frame)
    requires Consistent(s) && tab in s.table && SocketOf(s, tab).readyState == Open
    ensures var s1 := SocketPeerClosing(s, s.table[tab].socket);
            && tab in s1.table && s1.table[tab] == s.table[tab]
            && Chunk(s1, tab, frame) == (s1, Reply(false, Some(NotReady)))
  {
  }

  // ---------------------------------------------------------------------
  // The background page as an object
  // ---------------------------------------------------------------------

  /** The module-level state of background.js, updated in place by the
      message listener and by the handlers of the sockets it creates. */
  class Router {
    var table: map<TabId, Connection>
    var sockets: seq<Socket>
    var outbox: seq<TabMessage>

    function Model(): State
      reads this
    {
      State(table, sockets, outbox)
    }

    ghost predicate Valid()
      reads this
    {
      Consistent(Model())
    }

    constructor ()
      ensures Valid() && Model() == Init
    {
      table := map[];
      sockets := [];
      outbox := [];
    }

    method StartSession(tab: TabId, lang: Option<string>, thrown: Option<string>) returns (reply: Reply)
      requires Valid()
      modifies this
      ensures Valid()
      ensures (Model(), reply) == Start(old(Model()), tab, lang, thrown)
    {
      StartKeepsConsistent(Model(), tab, lang, thrown);
      if tab in table {
        var id := table[tab].socket;
        sockets := sockets[id := Close(sockets[id])];
        table := table - {tab};
      }
      if thrown.Some? {
        reply := Reply(false, Some(thrown.value));
        return;
      }
      var socket := Connect(tab, lang, true);
      sockets := sockets + [socket];
      table := table[tab := Connection(|sockets| - 1, tab)];
      reply := Reply(true, None);
    }

    method AudioChunk(tab: TabId, frame: Frame) returns (reply: Reply)
      requires Valid()
      modifies this
      ensures Valid()
      ensures (Model(), reply) == Chunk(old(Model()), tab, frame)
    {
      ChunkKeepsConsistent(Model(), tab, frame);
      if tab in table && sockets[table[tab].socket].readyState == Open {
        var id := table[tab].socket;
        sockets := sockets[id := Send(sockets[id], frame)];
        reply := Reply(true, None);
      } else {
        reply := Reply(false, Some(NotReady));
      }
    }

    method StopSession(tab: TabId) returns (reply: Reply)
      requires Valid()
      modifies this
      ensures Valid()
      ensures (Model(), reply) == Stop(old(Model()), tab)
    {
      StopKeepsConsistent(Model(), tab);
      if tab in table {
        var id := table[tab].socket;
        sockets := sockets[id := Close(sockets[id])];
        table := table - {tab};
        reply := Reply(true, None);
      } else {
        reply := Reply(false, Some(NoSession));
      }
    }

    /** The runtime message listener. */
    method OnRuntimeMessage(msg: Command, thrown: Option<string>) returns (reply: Option<Reply>)
      requires Valid()
      modifies this
      ensures Valid()
      ensures (Model(), reply) == HandleCommand(old(Model()), msg, thrown)
    {
      if msg.command == StartCommand {
        var r := StartSession(msg.tabId, msg.targetLanguage, thrown);
        reply := Some(r);
      } else if msg.command == ChunkCommand {
        var r := AudioChunk(msg.tabId, msg.chunk);
        reply := Some(r);
      } else if msg.command == StopCommand {
        var r := StopSession(msg.tabId);
        reply := Some(r);
      } else {
        reply := None;
      }
    }

    /** The callback a session of `tab` registers. */
    method CloseOrErrorCallback(tab: TabId, reason: Option<string>)
      requires Linked(Model())
      modifies this
      ensures Model() == CloseOrError(old(Model()), tab, reason)
    {
      if tab in table {
        table := table - {tab};
        outbox := outbox + [TabMessage(tab, Error(ClosedPrefix + ReasonText(reason)))];
      }
    }

    method HandleOpen(id: SocketId)
      requires Valid() && Deliverable(Model(), OpenFired(id))
      modifies this
      ensures Valid()
      ensures Model() == SocketOpened(old(Model()), id)
    {
      sockets := sockets[id := sockets[id].(readyState := Open)];
    }

    method HandlePeerClosing(id: SocketId)
      requires Valid() && Deliverable(Model(), PeerClosing(id))
      modifies this
      ensures Valid()
      ensures Model() == SocketPeerClosing(old(Model()), id)
    {
      sockets := sockets[id := sockets[id].(readyState := Closing)];
    }

    method HandleMessage(id: SocketId, data: Inbound)
      requires Valid() && Deliverable(Model(), MessageFired(id, data))
      modifies this
      ensures Valid()
      ensures Model() == SocketMessage(old(Model()), id, data)
    {
      var k := sockets[id];
      var note := OnMessage(k.tabId, k.targetLanguage, data);
      if note.Some? {
        outbox := outbox + [note.value];
      }
    }

    method HandleError(id: SocketId)
      requires Valid() && Deliverable(Model(), ErrorFired(id))
      modifies this
      ensures Valid()
      ensures Model() == SocketError(old(Model()), id)
    {
      CloseOrErrorKeepsConsistent(Model(), sockets[id].tabId, None);
      var k := sockets[id];
      if k.callbackSupplied {
        CloseOrErrorCallback(k.tabId, None);
      }
    }

    method HandleClose(id: SocketId, ev: CloseEvent)
      requires Valid() && Deliverable(Model(), CloseFired(id, ev))
      modifies this
      ensures Valid()
      ensures Model() == SocketClosed(old(Model()), id, ev)
    {
      SocketClosedKeepsConsistent(Model(), id, ev);
      var k := sockets[id];
      sockets := sockets[id := k.(readyState := Closed)];
      if k.callbackSupplied {
        CloseOrErrorCallback(k.tabId, Some(ev.reason));
      }
    }
  }
}
