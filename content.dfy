/** The content script of content.js: the subtitle overlay with its single
    pending hide timer, the speech synthesiser it drives, and the handler for
    the transcript and error messages sent to the tab. */
module Content {
  import opened Messages

  const DefaultDuration: nat := 2000
  const FinalDuration: nat := 5000
  const InterimDuration: nat := 2000
  const DefaultLang: string := "en"
  const ErrorPrefix: string := "Error: "

  datatype Utterance = Utterance(text: string, lang: string)

  /** A call the script makes on the speech synthesiser. */
  datatype SynthCall = Cancel | SpeakCall(utterance: Utterance)

  /** The script's state: the overlay's text and visibility and the duration
      of its pending hide timer; whether speech synthesis exists, the last
      utterance created, the synthesiser's queue (its head is being spoken)
      and every call made on it; and the interim transcript buffer. */
  datatype Page = Page(
    text: string,
    visible: bool,
    pendingHide: Option<nat>,
    synthAvailable: bool,
    utterance: Option<Utterance>,
    queue: seq<Utterance>,
    calls: seq<SynthCall>,
    interim: string)

  /** A freshly injected script: empty, hidden overlay, nothing spoken. */
  function Fresh(synthAvailable: bool): Page
  {
    Page("", false, None, synthAvailable, None, [], [], "")
  }

  predicate Speaking(p: Page)
  {
    |p.queue| > 0
  }

  /** What the script maintains: the overlay is visible exactly while a hide is
      pending, the synthesiser speaks at most the last utterance created, and
      without a synthesiser nothing is ever spoken. */
  ghost predicate Consistent(p: Page)
  {
    && (p.visible <==> p.pendingHide.Some?)
    && (p.queue == [] || (p.utterance.Some? && p.queue == [p.utterance.value]))
    && (!p.synthAvailable ==> p.utterance == None && p.queue == [] && p.calls == [])
  }

  /** The overlay fields are those of `p`. */
  ghost predicate SameOverlay(p: Page, r: Page)
  {
    r.text == p.text && r.visible == p.visible && r.pendingHide == p.pendingHide
  }

  /** The speech fields are those of `p`. */
  ghost predicate SameSpeech(p: Page, r: Page)
  {
    r.synthAvailable == p.synthAvailable && r.utterance == p.utterance && r.queue == p.queue && r.calls == p.calls
  }

  /** The `duration` argument, or 2000 ms when it is left out. */
  function DurationOrDefault(duration: Option<nat>): nat
  {
    if duration.Some? then duration.value else DefaultDuration
  }

  /** `showSubtitle(text, duration)`: set the text, show the overlay, and
      replace any pending hide by one after `duration` ms. */
  function Show(p: Page, text: string, duration: Option<nat>): (r: Page)
    ensures r.text == text && r.visible && r.pendingHide == Some(DurationOrDefault(duration))
    ensures duration.None? ==> r.pendingHide == Some(2000)
    ensures SameSpeech(p, r) && r.interim == p.interim
  {
    p.(text := text, visible := true, pendingHide := Some(DurationOrDefault(duration)))
  }

  /** The pending hide fires: the overlay is hidden, its text kept. */
  function Hide(p: Page): (r: Page)
    requires p.pendingHide.Some?
    ensures !r.visible && r.pendingHide == None && r.text == p.text
    ensures SameSpeech(p, r) && r.interim == p.interim
  {
    p.(visible := false, pendingHide := None)
  }

  /** `synth.cancel()`: the queue is emptied. */
  function CancelSpeech(p: Page): (r: Page)
    ensures !Speaking(r) && r.calls == p.calls + [Cancel]
    ensures SameOverlay(p, r) && r.utterance == p.utterance && r.interim == p.interim
    ensures r.synthAvailable == p.synthAvailable
  {
    p.(queue := [], calls := p.calls + [Cancel])
  }

  /** The language an utterance is given: `lang`, or "en" when absent. */
  function LangOrDefault(lang: Option<string>): string
  {
    if lang.Some? then lang.value else DefaultLang
  }

  /** Whether `speak` cancels first: only when an utterance exists and the
      synthesiser is speaking. */
  predicate CancelsFirst(p: Page)
  {
    p.utterance.Some? && Speaking(p)
  }

  /** `speak(text, lang)`. */
  function Say(p: Page, text: string, lang: Option<string>): (r: Page)
    // no synthesiser: nothing happens
    ensures !p.synthAvailable ==> r == p
    // otherwise one new utterance is queued, after a cancel when one is speaking
    ensures p.synthAvailable ==>
              var u := Utterance(text, LangOrDefault(lang));
              && r.utterance == Some(u)
              && r.calls == p.calls + (if CancelsFirst(p) then [Cancel] else []) + [SpeakCall(u)]
              && r.queue == (if CancelsFirst(p) then [] else p.queue) + [u]
    ensures SameOverlay(p, r) && r.interim == p.interim && r.synthAvailable == p.synthAvailable
  {
    if !p.synthAvailable then p
    else
      var cancelled := if CancelsFirst(p) then CancelSpeech(p) else p;
      var u := Utterance(text, LangOrDefault(lang));
      cancelled.(utterance := Some(u), queue := cancelled.queue + [u], calls := cancelled.calls + [SpeakCall(u)])
  }

  /** The synthesiser finishes (or abandons) the utterance at the head of its queue. */
  function SpeechDone(p: Page): (r: Page)
    requires Speaking(p)
    ensures r.queue == p.queue[1..] && |r.queue| == |p.queue| - 1
    ensures r.(queue := p.queue) == p
  {
    p.(queue := p.queue[1..])
  }

  /** The `chrome.runtime.onMessage` listener of the content script. */
  function Receive(p: Page, note: Note): (r: Page)
    // a final transcript: shown for 5000 ms, spoken, interim buffer reset
    ensures note.Transcript? && note.isFinal ==>
              && r.text == note.text && r.visible && r.pendingHide == Some(FinalDuration)
              && r.interim == ""
              && r.synthAvailable == p.synthAvailable
              && (p.synthAvailable ==>
                    var u := Utterance(note.text, LangOrDefault(note.targetLanguage));
                    r.utterance == Some(u)
                    && r.calls == p.calls + (if CancelsFirst(p) then [Cancel] else []) + [SpeakCall(u)]
                    && r.queue == (if CancelsFirst(p) then [] else p.queue) + [u])
              && (!p.synthAvailable ==> SameSpeech(p, r))
    // an interim transcript: buffered and shown for 2000 ms, no speech
    ensures note.Transcript? && !note.isFinal ==>
              && r.text == note.text && r.visible && r.pendingHide == Some(InterimDuration)
              && r.interim == note.text
              && SameSpeech(p, r)
    // an error: shown for 5000 ms, speech cancelled, nothing new spoken
    ensures note.Error? ==>
              && r.text == ErrorPrefix + note.message && r.visible && r.pendingHide == Some(FinalDuration)
              && r.interim == p.interim && r.utterance == p.utterance
              && r.synthAvailable == p.synthAvailable
              // cancel() is called only when a synthesiser exists and is speaking
              && r.calls == p.calls + (if p.synthAvailable && Speaking(p) then [Cancel] else [])
              && r.queue == (if p.synthAvailable && Speaking(p) then [] else p.queue)
    // any other message type changes nothing
    ensures note.Other? ==> r == p
  {
    match note
    case Transcript(text, lang, isFinal) =>
      if isFinal then
        var shown := Show(p, text, Some(FinalDuration));
        var spoken := Say(shown, text, lang);
        spoken.(interim := "")
      else
        var buffered := p.(interim := text);
        Show(buffered, buffered.interim, Some(InterimDuration))
    case Error(message) =>
      var shown := Show(p, ErrorPrefix + message, Some(FinalDuration));
      if shown.synthAvailable && Speaking(shown) then CancelSpeech(shown) else shown
    case Other(_) => p
  }

  // ---------------------------------------------------------------------
  // Properties
  // ---------------------------------------------------------------------

  /** Two calls of `showSubtitle`: the last one wins, text and timer alike. */
  lemma LastShowWins(p: Page, a: string, d: Option<nat>, b: string, e: Option<nat>)
    ensures Show(Show(p, a, d), b, e) == Show(p, b, e)
  {
  }

  /** Under the script's invariant, speaking a final transcript cancels the
      utterance in flight, so exactly the new one is queued. */
  lemma FinalReplacesSpeech(p: Page, text: string, lang: Option<string>)
    requires Consistent(p) && p.synthAvailable
    ensures Receive(p, Transcript(text, lang, true)).queue == [Utterance(text, LangOrDefault(lang))]
  {
  }

  /** Everything that can happen to the content script. */
  datatype Event = Received(note: Note) | HideFired | SpeechEnded

  /** The host fires only a pending timer and ends only queued speech. */
  predicate Deliverable(p: Page, e: Event)
  {
    match e
    case Received(_) => true
    case HideFired => p.pendingHide.Some?
    case SpeechEnded => Speaking(p)
  }

  function Step(p: Page, e: Event): Page
  {
    if !Deliverable(p, e) then p
    else match e
      case Received(note) => Receive(p, note)
      case HideFired => Hide(p)
      case SpeechEnded => SpeechDone(p)
  }

  function Run(p: Page, es: seq<Event>): Page
    decreases |es|
  {
    if es == [] then p else Run(Step(p, es[0]), es[1..])
  }

  lemma StepKeepsConsistent(p: Page, e: Event)
    requires Consistent(p)
    ensures Consistent(Step(p, e))
  {
  }

  /** Whatever messages, timer firings and speech endings arrive, the overlay
      is visible exactly while one hide is pending and at most one utterance
      is ever queued. */
  lemma {:induction false} RunKeepsConsistent(p: Page, es: seq<Event>)
    requires Consistent(p)
    ensures Consistent(Run(p, es))
    ensures |Run(p, es).queue| <= 1
    decreases |es|
  {
    if es != [] {
      StepKeepsConsistent(p, es[0]);
      RunKeepsConsistent(Step(p, es[0]), es[1..]);
    }
  }

  // ---------------------------------------------------------------------
  // The content script as an object
  // ---------------------------------------------------------------------

  /** The module-level state of content.js, overwritten by each handler. */
  class ContentScript {
    var text: string
    var visible: bool
    var hideTimeout: Option<nat>
    const synthAvailable: bool
    var speechUtterance: Option<Utterance>
    var queue: seq<Utterance>
    var synthCalls: seq<SynthCall>
    var currentInterimTranscript: string

    function Model(): Page
      reads this
    {
      Page(text, visible, hideTimeout, synthAvailable, speechUtterance, queue, synthCalls, currentInterimTranscript)
    }

    ghost predicate Valid()
      reads this
    {
      Consistent(Model())
    }

    constructor (hasSynth: bool)
      ensures Valid() && Model() == Fresh(hasSynth)
    {
      text := "";
      visible := false;
      hideTimeout := None;
      synthAvailable := hasSynth;
      speechUtterance := None;
      queue := [];
      synthCalls := [];
      currentInterimTranscript := "";
    }

    method ShowSubtitle(t: string, duration: Option<nat>)
      requires Valid()
      modifies this
      ensures Valid()
      ensures Model() == Show(old(Model()), t, duration)
    {
      text := t;
      visible := true;
      // clearTimeout, then setTimeout: the new hide replaces any pending one
      hideTimeout := Some(DurationOrDefault(duration));
    }

    method HideTimeoutFires()
      requires Valid() && hideTimeout.Some?
      modifies this
      ensures Valid()
      ensures Model() == Hide(old(Model()))
    {
      visible := false;
      hideTimeout := None;
    }

    method Speak(t: string, lang: Option<string>)
      requires Valid()
      modifies this
      ensures Valid()
      ensures Model() == Say(old(Model()), t, lang)
    {
      if !synthAvailable {
        return;
      }
      if speechUtterance.Some? && |queue| > 0 {
        queue := [];
        synthCalls := synthCalls + [Cancel];
      }
      var u := Utterance(t, LangOrDefault(lang));
      speechUtterance := Some(u);
      queue := queue + [u];
      synthCalls := synthCalls + [SpeakCall(u)];
    }

    method SpeechEnds()
      requires Valid() && |queue| > 0
      modifies this
      ensures Valid()
      ensures Model() == SpeechDone(old(Model()))
    {
      queue := queue[1..];
    }

    method OnMessage(note: Note)
      requires Valid()
      modifies this
      ensures Valid()
      ensures Model() == Receive(old(Model()), note)
    {
      match note
      case Transcript(t, lang, isFinal) =>
        if isFinal {
          ShowSubtitle(t, Some(FinalDuration));
          Speak(t, lang);
          currentInterimTranscript := "";
        } else {
          currentInterimTranscript := t;
          ShowSubtitle(currentInterimTranscript, Some(InterimDuration));
        }
      case Error(message) =>
        ShowSubtitle(ErrorPrefix + message, Some(FinalDuration));
        if synthAvailable && |queue| > 0 {
          queue := [];
          synthCalls := synthCalls + [Cancel];
        }
      case Other(_) =>
    }
  }
}
