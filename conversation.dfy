/** The conversation core of the KITT assistant (ConversationManager.kt): the bounded
    conversation history and its rendering into the prompt, the reading of the
    model's JSON reply into a spoken text and an optional UI descriptor, the
    `SystemState` snapshot and how context updates and dispatched actions change it.

    The model call itself, Android intents, broadcasts, the audio manager and the
    text-to-speech engine are outside the model: a call's outcome is a parameter
    (`ModelOutcome`), what the platform can do is a parameter (`Platform`), and every
    platform effect is recorded as an `Event`. */
module Conversation {
  import opened Common
  import opened Json

  // ---------------------------------------------------------------------------
  // Data classes
  // ---------------------------------------------------------------------------

  datatype TemplateType = Message | Pane | List

  /** The enum constant's name, as `TemplateType.valueOf` matches it. */
  function TemplateName(t: TemplateType): string {
    match t
    case Message => "MESSAGE"
    case Pane => "PANE"
    case List => "LIST"
  }

  datatype UiListItem = UiListItem(title: string, description: Option<string>, actionId: Option<string>)

  datatype UiUpdate = UiUpdate(
    templateType: TemplateType,
    title: Option<string>,
    primaryText: Option<string>,
    secondaryText: Option<string>,
    items: Option<seq<UiListItem>>)

  datatype KittResponse = KittResponse(spokenResponse: string, uiUpdate: Option<UiUpdate>)

  datatype SystemState = SystemState(
    isNavigating: bool,
    currentDestination: Option<string>,
    isPlayingMusic: bool,
    currentSong: Option<string>,
    currentArtist: Option<string>,
    volume: int,
    hasUnreadNotifications: bool)

  /** `SystemState(volume = initialVolume)`: every other field at its default. */
  function InitialState(volume: int): SystemState {
    SystemState(false, None, false, None, None, volume, false)
  }

  /** One part of a history entry; only text parts are produced by this app. */
  datatype Part = TextPart(text: string) | OtherPart

  /** A history entry (the SDK's `Content`): an optional role and its parts. */
  datatype Content = Content(role: Option<string>, parts: seq<Part>)

  function UserContent(text: string): Content { Content(Some("user"), [TextPart(text)]) }

  function ModelContent(text: string): Content { Content(Some("model"), [TextPart(text)]) }

  /** The platform effects the core can cause. */
  datatype Event =
    | OpenNavigation(destination: string)      // google.navigation intent
    | Broadcast(action: string)                // media-control broadcast
    | SetStreamVolume(level: int)              // AudioManager.setStreamVolume
    | OpenDialer(number: string)               // ACTION_DIAL intent
    | OpenSms(to: string, body: string)        // ACTION_SENDTO intent
    | Speak(text: string)                      // the manager's own tts.speak

  /** What the device does when asked: the stream's maximum volume and, for each
      kind of platform call, whether it goes through (false: it throws). */
  datatype Platform = Platform(
    maxVolume: int,
    navigationWorks: bool,
    broadcastWorks: bool,
    volumeWorks: bool,
    dialerWorks: bool,
    smsWorks: bool)

  /** The state an operation leaves behind and the effects it caused, in order. */
  datatype Step = Step(state: SystemState, events: seq<Event>)

  /** What the generative-model call produced: it threw, it gave no text, or it
      gave a text together with what org.json makes of it (`None`: not JSON). */
  datatype ModelOutcome = CallFailed | NoText | Reply(raw: string, parsed: Option<JValue>)

  // ---------------------------------------------------------------------------
  // Conversation history and the history section of the prompt
  // ---------------------------------------------------------------------------

  const MaxHistory: nat := 10

  /** The history after the removal loop of `updateHistory`: entries are dropped
      two at a time from the front while more than `2 * MaxHistory` remain. */
  function Trimmed(h: seq<Content>): seq<Content>
    decreases |h|
  {
    if |h| <= 2 * MaxHistory then h else Trimmed(h[2..])
  }

  /** Trimming keeps a suffix of at most 20 entries, removes an even number of
      entries (oldest first), stops as soon as 20 or fewer remain (so 21 becomes
      19) and leaves a history of 20 or fewer alone. */
  lemma {:induction false} TrimmedWindow(h: seq<Content>)
    ensures |Trimmed(h)| <= 2 * MaxHistory
    ensures Trimmed(h) == h[|h| - |Trimmed(h)|..]
    ensures (|h| - |Trimmed(h)|) % 2 == 0
    ensures |h| > 2 * MaxHistory ==> |Trimmed(h)| >= 2 * MaxHistory - 1
    ensures |h| <= 2 * MaxHistory ==> Trimmed(h) == h
  {
    if |h| > 2 * MaxHistory {
      TrimmedWindow(h[2..]);
      assert h[2..][|h[2..]| - |Trimmed(h)|..] == h[|h| - |Trimmed(h)|..];
    }
  }

  const UnknownRole := "Desconhecido"
  const NonTextual := "[Conteúdo não textual]"

  function PartText(p: Part): string {
    match p
    case TextPart(t) => t
    case OtherPart => NonTextual
  }

  function PartTexts(ps: seq<Part>): seq<string> {
    seq(|ps|, i requires 0 <= i < |ps| => PartText(ps[i]))
  }

  /** The role with its first character upper-cased, or "Desconhecido" without one. */
  function RoleLabel(role: Option<string>): string {
    match role
    case None => UnknownRole
    case Some(r) => CapitalizeFirst(r)
  }

  /** One history line: "Role: text", the parts joined with ", ". */
  function RenderTurn(c: Content): string {
    RoleLabel(c.role) + ": " + Join(", ", PartTexts(c.parts))
  }

  function RenderAll(h: seq<Content>): seq<string> {
    seq(|h|, i requires 0 <= i < |h| => RenderTurn(h[i]))
  }

  /** `takeLast(n)`. */
  function LastN<T>(h: seq<T>, n: nat): (r: seq<T>)
    ensures |r| == if |h| <= n then |h| else n
    ensures r == h[|h| - |r|..]
  {
    if |h| <= n then h else h[|h| - n..]
  }

  /** The history section of `buildPrompt`: the last `MaxHistory` entries, one per line. */
  function PromptHistory(h: seq<Content>): string {
    Join("\n", RenderAll(LastN(h, MaxHistory)))
  }

  /** Entries older than the last ten never reach the prompt. */
  lemma PromptHistoryIgnoresOlder(older: seq<Content>, recent: seq<Content>)
    requires |recent| >= MaxHistory
    ensures PromptHistory(older + recent) == PromptHistory(recent)
  {
    assert LastN(older + recent, MaxHistory) == LastN(recent, MaxHistory);
  }

  /** While the history is shorter than ten entries, a new entry adds one line at
      the end and leaves the earlier lines as they were. */
  lemma PromptHistoryAppend(h: seq<Content>, c: Content)
    requires |h| < MaxHistory
    ensures PromptHistory(h + [c]) ==
            if h == [] then RenderTurn(c) else PromptHistory(h) + "\n" + RenderTurn(c)
  {
    var parts := RenderAll(h + [c]);
    assert LastN(h + [c], MaxHistory) == h + [c];
    assert LastN(h, MaxHistory) == h;
    assert parts[..|parts| - 1] == RenderAll(h);
  }

  /** The two roles the app writes are shown as "User" and "Model". */
  lemma RenderedRoles(text: string)
    ensures RenderTurn(UserContent(text)) == "User: " + text
    ensures RenderTurn(ModelContent(text)) == "Model: " + text
    ensures RenderTurn(Content(None, [TextPart(text)])) == "Desconhecido: " + text
  {
    assert PartTexts([TextPart(text)]) == [text];
  }

  // ---------------------------------------------------------------------------
  // context_updates
  // ---------------------------------------------------------------------------

  /** A boolean field after `has(key)` / `optBoolean(key, current)`. */
  function FlagUpdate(cu: JObj, key: string, current: bool): bool {
    if key in cu then OptBoolean(cu, key, current) else current
  }

  /** A text field after `has(key)` / `optString(key, current).ifEmpty { null }`. */
  function TextUpdate(cu: JObj, key: string, current: Option<string>): Option<string> {
    if key !in cu then current
    else match OptString(cu, key)
      case Some(t) => NullIfEmpty(t)
      case None => current
  }

  /** The state after the `context_updates` block of `processGeminiResponse`. */
  function ContextUpdated(s: SystemState, updates: Option<JObj>): SystemState
  {
    if updates.None? || |updates.value| == 0 then s
    else
      var cu := updates.value;
      SystemState(
        FlagUpdate(cu, "isNavigating", s.isNavigating),
        TextUpdate(cu, "currentDestination", s.currentDestination),
        FlagUpdate(cu, "isPlayingMusic", s.isPlayingMusic),
        TextUpdate(cu, "currentSong", s.currentSong),
        TextUpdate(cu, "currentArtist", s.currentArtist),
        s.volume,
        s.hasUnreadNotifications)
  }

  /** What the context updates do to each field: a missing or empty object changes
      nothing; volume and the unread flag are never touched; a field whose key is
      absent keeps its value; a boolean given for a flag is taken; a non-empty string
      given for a text field is taken and an empty one clears it. */
  lemma ContextUpdateFields(s: SystemState, updates: Option<JObj>)
    ensures updates.None? || |updates.value| == 0 ==> ContextUpdated(s, updates) == s
    ensures ContextUpdated(s, updates).volume == s.volume && ContextUpdated(s, updates).hasUnreadNotifications == s.hasUnreadNotifications
    ensures updates.Some? && "isNavigating" !in updates.value ==> ContextUpdated(s, updates).isNavigating == s.isNavigating
    ensures updates.Some? && "currentDestination" !in updates.value ==> ContextUpdated(s, updates).currentDestination == s.currentDestination
    ensures updates.Some? && "isPlayingMusic" !in updates.value ==> ContextUpdated(s, updates).isPlayingMusic == s.isPlayingMusic
    ensures updates.Some? && "currentSong" !in updates.value ==> ContextUpdated(s, updates).currentSong == s.currentSong
    ensures updates.Some? && "currentArtist" !in updates.value ==> ContextUpdated(s, updates).currentArtist == s.currentArtist
    ensures updates.Some? && OptString(updates.value, "currentDestination") == Some("") ==> ContextUpdated(s, updates).currentDestination.None?
    ensures updates.Some? && OptString(updates.value, "currentSong") == Some("") ==> ContextUpdated(s, updates).currentSong.None?
    ensures updates.Some? && OptString(updates.value, "currentArtist") == Some("") ==> ContextUpdated(s, updates).currentArtist.None?
    ensures updates.Some? && OptString(updates.value, "currentDestination").Some? && OptString(updates.value, "currentDestination") != Some("") ==>
              ContextUpdated(s, updates).currentDestination == OptString(updates.value, "currentDestination")
    ensures updates.Some? && OptString(updates.value, "currentSong").Some? && OptString(updates.value, "currentSong") != Some("") ==>
              ContextUpdated(s, updates).currentSong == OptString(updates.value, "currentSong")
    ensures updates.Some? && OptString(updates.value, "currentArtist").Some? && OptString(updates.value, "currentArtist") != Some("") ==>
              ContextUpdated(s, updates).currentArtist == OptString(updates.value, "currentArtist")
    ensures updates.Some? && "isNavigating" in updates.value && updates.value["isNavigating"].JBool? ==>
              ContextUpdated(s, updates).isNavigating == updates.value["isNavigating"].b
    ensures updates.Some? && "isPlayingMusic" in updates.value && updates.value["isPlayingMusic"].JBool? ==>
              ContextUpdated(s, updates).isPlayingMusic == updates.value["isPlayingMusic"].b
  {
  }

  /** The text under `key`, read as the state would store it, agrees with `current`. */
  predicate TextAgrees(cu: JObj, key: string, current: Option<string>) {
    key in cu && cu[key].JString? ==>
      if cu[key].str == "" then current.None? else current == Some(cu[key].str)
  }

  /** Every field the updates name already holds the value they give it. */
  predicate Agrees(s: SystemState, cu: JObj) {
    && ("isNavigating" in cu && cu["isNavigating"].JBool? ==> cu["isNavigating"].b == s.isNavigating)
    && ("isPlayingMusic" in cu && cu["isPlayingMusic"].JBool? ==> cu["isPlayingMusic"].b == s.isPlayingMusic)
    && TextAgrees(cu, "currentDestination", s.currentDestination)
    && TextAgrees(cu, "currentSong", s.currentSong)
    && TextAgrees(cu, "currentArtist", s.currentArtist)
  }

  lemma TextUpdateKeeps(cu: JObj, key: string, current: Option<string>)
    ensures TextUpdate(cu, key, current) == current <==> TextAgrees(cu, key, current)
  {
  }

  /** An update leaves the state unchanged exactly when it agrees with it, so an
      update matching the current state is a no-op. */
  lemma ContextUpdateNoOp(s: SystemState, cu: JObj)
    ensures ContextUpdated(s, Some(cu)) == s <==> (|cu| == 0 || Agrees(s, cu))
  {
    if |cu| > 0 {
      var r := ContextUpdated(s, Some(cu));
      TextUpdateKeeps(cu, "currentDestination", s.currentDestination);
      TextUpdateKeeps(cu, "currentSong", s.currentSong);
      TextUpdateKeeps(cu, "currentArtist", s.currentArtist);
      assert r.isNavigating == s.isNavigating <==>
        ("isNavigating" in cu && cu["isNavigating"].JBool? ==> cu["isNavigating"].b == s.isNavigating);
      assert r.isPlayingMusic == s.isPlayingMusic <==>
        ("isPlayingMusic" in cu && cu["isPlayingMusic"].JBool? ==> cu["isPlayingMusic"].b == s.isPlayingMusic);
      if Agrees(s, cu) {
        assert r == s;
      }
    }
  }

  /** Applying the same updates twice is applying them once. */
  lemma ContextUpdateIdempotent(s: SystemState, updates: Option<JObj>)
    ensures ContextUpdated(ContextUpdated(s, updates), updates) == ContextUpdated(s, updates)
  {
  }

  // ---------------------------------------------------------------------------
  // ui_update
  // ---------------------------------------------------------------------------

  /** `TemplateType.valueOf`: the constant with exactly this name, if any. */
  function TemplateTypeOf(name: string): (r: Option<TemplateType>)
    ensures r.Some? ==> TemplateName(r.value) == name
    ensures r.None? ==> forall t: TemplateType :: TemplateName(t) != name
  {
    if name == "MESSAGE" then Some(Message)
    else if name == "PANE" then Some(Pane)
    else if name == "LIST" then Some(List)
    else None
  }

  /** Upper-casing does not change a name that is already upper case. */
  lemma UpperOfTemplateName(t: TemplateType)
    ensures Upper(TemplateName(t)) == TemplateName(t)
  {
    var n := TemplateName(t);
    assert forall i :: 0 <= i < |n| ==> UpperChar(n[i]) == n[i];
  }

  /** Every template type is recognised from its name in any ASCII letter case:
      the name upper-cased selects it. */
  lemma TemplateTypeRoundTrip(t: TemplateType, spelled: string)
    requires Upper(spelled) == TemplateName(t)
    ensures TemplateTypeOf(Upper(spelled)) == Some(t)
  {
  }

  /** "list" and "Pane" are read as LIST and PANE. */
  lemma LowerCaseTemplateNames()
    ensures TemplateTypeOf(Upper("list")) == Some(List)
    ensures TemplateTypeOf(Upper("Pane")) == Some(Pane)
  {
    assert Upper("list") == "LIST";
    assert Upper("Pane") == "PANE";
  }

  const UntitledItem := "Item sem título"

  /** The item title as `optString("title") ?: "Item sem título"` computes it:
      `optString` returns "" for a missing key and never null, so the fallback is
      never taken. */
  function ItemTitleAsWritten(o: JObj): string {
    OptStringOr(o, "title", "")
  }

  /** An item without a title gets the empty title, not "Item sem título". */
  lemma UntitledItemAsWritten()
    ensures ItemTitleAsWritten(map[]) == ""
    ensures ItemTitleAsWritten(map[]) != UntitledItem
  {
  }

  /** The item title the fallback was written for: the title when there is one,
      else "Item sem título". */
  function ItemTitle(o: JObj): (r: string)
    ensures OptString(o, "title").None? ==> r == UntitledItem
    ensures OptString(o, "title").Some? ==> r == OptString(o, "title").value
  {
    OptString(o, "title").GetOr(UntitledItem)
  }

  function ItemOf(o: JObj): UiListItem {
    UiListItem(ItemTitleAsWritten(o), OptString(o, "description"), OptString(o, "actionId"))
  }

  /** The items of a LIST descriptor: one per object entry, in order. */
  function ItemsOf(xs: seq<JValue>): seq<UiListItem>
    decreases |xs|
  {
    if xs == [] then []
    else
      var last := xs[|xs| - 1];
      ItemsOf(xs[..|xs| - 1]) + (if last.JObject? then [ItemOf(last.fields)] else [])
  }

  /** Reading items distributes over concatenation: order is kept. */
  lemma {:induction false} ItemsOfAppend(a: seq<JValue>, b: seq<JValue>)
    ensures ItemsOf(a + b) == ItemsOf(a) + ItemsOf(b)
    decreases |b|
  {
    if b == [] {
      assert a + b == a;
    } else {
      var init := b[..|b| - 1];
      assert (a + b)[..|a + b| - 1] == a + init;
      ItemsOfAppend(a, init);
    }
  }

  /** A non-object entry contributes nothing, an object exactly its item. */
  lemma ItemsOfSingle(x: JValue)
    ensures ItemsOf([x]) == if x.JObject? then [ItemOf(x.fields)] else []
  {
    assert [x][..0] == [];
  }

  /** When every entry is an object there is one item per entry, in order. */
  lemma {:induction false} ItemsOfObjects(xs: seq<JValue>)
    requires forall i :: 0 <= i < |xs| ==> xs[i].JObject?
    ensures |ItemsOf(xs)| == |xs|
    ensures forall i :: 0 <= i < |xs| ==> ItemsOf(xs)[i] == ItemOf(xs[i].fields)
    decreases |xs|
  {
    if xs != [] {
      ItemsOfObjects(xs[..|xs| - 1]);
    }
  }

  /** The descriptor `processGeminiResponse` builds from a `ui_update` object. */
  function UiUpdateOf(ui: JObj): (r: Option<UiUpdate>)
    ensures r.Some? <==> TemplateTypeOf(Upper(OptStringOr(ui, "template_type", ""))).Some?
    ensures r.Some? ==> TemplateName(r.value.templateType) == Upper(OptStringOr(ui, "template_type", ""))
    ensures r.Some? ==> r.value.title == OptString(ui, "title") && r.value.primaryText == OptString(ui, "primary_text")
                        && r.value.secondaryText == OptString(ui, "secondary_text")
    ensures r.Some? && r.value.templateType != List ==> r.value.items.None?
    ensures r.Some? && r.value.templateType == List ==>
              r.value.items == if OptArray(ui, "items").Some? then Some(ItemsOf(OptArray(ui, "items").value)) else None
  {
    match TemplateTypeOf(Upper(OptStringOr(ui, "template_type", "")))
    case None => None
    case Some(tt) =>
      var items := OptArray(ui, "items");
      Some(UiUpdate(tt, OptString(ui, "title"), OptString(ui, "primary_text"), OptString(ui, "secondary_text"),
                    if items.Some? && tt == List then Some(ItemsOf(items.value)) else None))
  }

  /** As written, a LIST item without a title is read with the empty title. */
  lemma UntitledListItemAsWritten()
    ensures UiUpdateOf(map["template_type" := JString("LIST"), "items" := JArray([JObject(map[])])])
            == Some(UiUpdate(List, None, None, None, Some([UiListItem("", None, None)])))
  {
    UpperOfTemplateName(List);
    ItemsOfSingle(JObject(map[]));
  }

  /** The `ui_update` block of `processGeminiResponse`, with its item loop. */
  method ParseUiUpdate(ui: JObj) returns (update: Option<UiUpdate>)
    ensures update == UiUpdateOf(ui)
  {
    var templateStr := Upper(OptStringOr(ui, "template_type", ""));
    var templateType := TemplateTypeOf(templateStr);
    if templateType.None? {
      return None;
    }
    var itemsJson := OptArray(ui, "items");
    var itemsList: Option<seq<UiListItem>> := None;
    if itemsJson.Some? && templateType.value == List {
      var xs := itemsJson.value;
      var acc: seq<UiListItem> := [];
      for i := 0 to |xs|
        invariant acc == ItemsOf(xs[..i])
      {
        assert xs[..i + 1][..i] == xs[..i];
        if xs[i].JObject? {
          acc := acc + [ItemOf(xs[i].fields)];
        }
      }
      assert xs[..|xs|] == xs;
      itemsList := Some(acc);
    }
    update := Some(UiUpdate(templateType.value, OptString(ui, "title"), OptString(ui, "primary_text"),
                            OptString(ui, "secondary_text"), itemsList));
  }

  // ---------------------------------------------------------------------------
  // Actions
  // ---------------------------------------------------------------------------

  const NavigationError := "Ocorreu um erro inesperado ao tentar iniciar a navegação."
  const MusicError := "Tive um problema ao controlar a música."
  const VolumeRejected := "Não posso ajustar para esse nível de volume."
  const VolumeError := "Não consegui ajustar o volume."
  const NotificationsUnsupported := "Ainda não consigo ler notificações."
  const CallError := "Não consegui iniciar a chamada."
  const SmsError := "Não consegui preparar a mensagem."

  const TogglePauseAction := "com.android.music.musicservicecommand.togglepause"
  const PauseAction := "com.android.music.musicservicecommand.pause"
  const NextAction := "com.android.music.musicservicecommand.next"
  const PreviousAction := "com.android.music.musicservicecommand.previous"
  const StopAction := "com.android.music.musicservicecommand.stop"

  /** `startNavigation`: on success the state records the trip. */
  function NavigationStarted(s: SystemState, destination: string, p: Platform): (r: Step)
    ensures p.navigationWorks ==>
              r.state == s.(isNavigating := true, currentDestination := Some(destination))
              && r.events == [OpenNavigation(destination)]
    ensures !p.navigationWorks ==> r.state == s && r.events == [Speak(NavigationError)]
  {
    if p.navigationWorks then
      Step(s.(isNavigating := true, currentDestination := Some(destination)), [OpenNavigation(destination)])
    else
      Step(s, [Speak(NavigationError)])
  }

  /** The command-to-broadcast table of `controlMusic`, on the lower-cased command. */
  function MusicAction(command: string): Option<string> {
    var c := Lower(command);
    if c == "play" then Some(TogglePauseAction)
    else if c == "pause" then Some(PauseAction)
    else if c == "next" then Some(NextAction)
    else if c == "previous" then Some(PreviousAction)
    else if c == "stop" then Some(StopAction)
    else None
  }

  /** The guessed playing flag after a recognised command. */
  function PlayingAfter(command: string, playing: bool): bool {
    var c := Lower(command);
    if c == "play" then true
    else if c == "pause" || c == "stop" then false
    else playing
  }

  /** `controlMusic`: an unknown command changes nothing; a recognised one sends its
      broadcast and, if that goes through, guesses the new playing state. Song and
      artist are taken only for the exact command "play". */
  function MusicControlled(s: SystemState, command: string, song: Option<string>, artist: Option<string>, p: Platform): (r: Step)
    ensures MusicAction(command).None? ==> r == Step(s, [])
    ensures MusicAction(command).Some? && !p.broadcastWorks ==> r == Step(s, [Speak(MusicError)])
    ensures MusicAction(command).Some? && p.broadcastWorks ==> r.events == [Broadcast(MusicAction(command).value)]
    ensures r.state.isNavigating == s.isNavigating && r.state.currentDestination == s.currentDestination
    ensures r.state.volume == s.volume && r.state.hasUnreadNotifications == s.hasUnreadNotifications
    ensures r.state.currentSong != s.currentSong ==> command == "play" && r.state.currentSong == song
    ensures r.state.currentArtist != s.currentArtist ==> command == "play" && r.state.currentArtist == artist
    ensures MusicAction(command).Some? && p.broadcastWorks ==>
              && (Lower(command) == "play" ==> r.state.isPlayingMusic)
              && (Lower(command) in {"pause", "stop"} ==> !r.state.isPlayingMusic)
              && (Lower(command) in {"next", "previous"} ==> r.state.isPlayingMusic == s.isPlayingMusic)
    ensures song.None? ==> r.state.currentSong == s.currentSong
    ensures artist.None? ==> r.state.currentArtist == s.currentArtist
  {
    match MusicAction(command)
    case None => Step(s, [])
    case Some(action) =>
      if !p.broadcastWorks then Step(s, [Speak(MusicError)])
      else
        Step(s.(isPlayingMusic := PlayingAfter(command, s.isPlayingMusic),
                currentSong := if command == "play" && song.Some? then song else s.currentSong,
                currentArtist := if command == "play" && artist.Some? then artist else s.currentArtist),
             [Broadcast(action)])
  }

  /** The music commands are matched in any ASCII letter case. */
  lemma MusicCommandCaseInsensitive(command: string)
    ensures MusicAction(Lower(command)) == MusicAction(command)
    ensures forall playing: bool :: PlayingAfter(Lower(command), playing) == PlayingAfter(command, playing)
  {
    LowerIdempotent(command);
  }

  /** Lower-casing leaves a string without upper-case ASCII letters alone. */
  lemma LowerOfLowerCase(s: string)
    requires forall i :: 0 <= i < |s| ==> !('A' <= s[i] <= 'Z')
    ensures Lower(s) == s
  {
  }

  /** The heuristic state table, "play": playback starts and the song and artist
      given are taken. */
  lemma MusicPlay(s: SystemState, song: Option<string>, artist: Option<string>, p: Platform)
    requires p.broadcastWorks
    ensures MusicControlled(s, "play", song, artist, p).state.isPlayingMusic
    ensures song.Some? ==> MusicControlled(s, "play", song, artist, p).state.currentSong == song
    ensures artist.Some? ==> MusicControlled(s, "play", song, artist, p).state.currentArtist == artist
  {
    LowerOfLowerCase("play");
  }

  /** "pause" and "stop" end playback. */
  lemma MusicPauseStop(s: SystemState, song: Option<string>, artist: Option<string>, p: Platform)
    requires p.broadcastWorks
    ensures !MusicControlled(s, "pause", song, artist, p).state.isPlayingMusic
    ensures !MusicControlled(s, "stop", song, artist, p).state.isPlayingMusic
  {
    LowerOfLowerCase("pause");
    LowerOfLowerCase("stop");
  }

  /** "next" and "previous" send their broadcast and keep the state. */
  lemma MusicNextPrevious(s: SystemState, song: Option<string>, artist: Option<string>, p: Platform)
    requires p.broadcastWorks
    ensures MusicControlled(s, "next", song, artist, p) == Step(s, [Broadcast(NextAction)])
    ensures MusicControlled(s, "previous", song, artist, p) == Step(s, [Broadcast(PreviousAction)])
  {
    LowerOfLowerCase("next");
    LowerOfLowerCase("previous");
    assert MusicAction("next") == Some(NextAction) && PlayingAfter("next", s.isPlayingMusic) == s.isPlayingMusic;
    assert MusicAction("previous") == Some(PreviousAction) && PlayingAfter("previous", s.isPlayingMusic) == s.isPlayingMusic;
  }

  /** An upper-case "PLAY" starts playback but, unlike "play", keeps the song. */
  lemma UpperCasePlayKeepsSong(s: SystemState, song: string, p: Platform)
    requires p.broadcastWorks
    ensures MusicControlled(s, "PLAY", Some(song), None, p).state.isPlayingMusic
    ensures MusicControlled(s, "PLAY", Some(song), None, p).state.currentSong == s.currentSong
  {
    assert Lower("PLAY") == "play" by {
      assert Lower("PLAY")[0] == 'p' && Lower("PLAY")[1] == 'l';
      assert Lower("PLAY")[2] == 'a' && Lower("PLAY")[3] == 'y';
    }
  }

  /** The command of a PLAY_MUSIC action as `optString("command") ?: "play"`
      computes it: "" when absent, since `optString` never returns null. */
  function MusicCommandAsWritten(a: JObj): string {
    OptStringOr(a, "command", "")
  }

  /** A PLAY_MUSIC action without a command does nothing at all as written. */
  lemma MissingMusicCommandAsWritten(s: SystemState, p: Platform)
    ensures MusicControlled(s, MusicCommandAsWritten(map[]), None, None, p) == Step(s, [])
  {
    assert Lower("") == "";
  }

  /** The command the fallback was written for: the command, else "play". */
  function MusicCommand(a: JObj): (r: string)
    ensures OptString(a, "command").None? ==> r == "play"
    ensures OptString(a, "command").Some? ==> r == OptString(a, "command").value
  {
    OptString(a, "command").GetOr("play")
  }

  /** With the intended default, a PLAY_MUSIC action without a command starts playback. */
  lemma MissingMusicCommandPlays(s: SystemState, p: Platform)
    requires p.broadcastWorks
    ensures MusicControlled(s, MusicCommand(map[]), None, None, p).state.isPlayingMusic
    ensures MusicControlled(s, MusicCommand(map[]), None, None, p).events == [Broadcast(TogglePauseAction)]
  {
    LowerOfLowerCase("play");
  }

  /** `coerceIn(lo, hi)`. */
  function Clamp(x: int, lo: int, hi: int): int {
    if x < lo then lo else if x > hi then hi else x
  }

  /** `adjustVolume`: the level is taken iff it lies in [0, maxVolume] and the
      audio manager works; otherwise the state is unchanged. */
  function VolumeAdjusted(s: SystemState, level: int, p: Platform): (r: Step)
    ensures r.state == if p.volumeWorks && 0 <= level <= p.maxVolume then s.(volume := level) else s
    ensures p.volumeWorks && 0 <= level <= p.maxVolume ==> r.events == [SetStreamVolume(level)]
    ensures p.volumeWorks && !(0 <= level <= p.maxVolume) ==> r.events == [Speak(VolumeRejected)]
    ensures !p.volumeWorks ==> r.events == [Speak(VolumeError)]
  {
    if !p.volumeWorks then Step(s, [Speak(VolumeError)])
    else if 0 <= level <= p.maxVolume then
      var safeLevel := Clamp(level, 0, p.maxVolume);
      Step(s.(volume := safeLevel), [SetStreamVolume(safeLevel)])
    else Step(s, [Speak(VolumeRejected)])
  }

  /** `readNotifications`: apologises and marks the notifications read. */
  function NotificationsRead(s: SystemState): (r: Step)
    ensures !r.state.hasUnreadNotifications
    ensures r.state.(hasUnreadNotifications := s.hasUnreadNotifications) == s
    ensures r.events == [Speak(NotificationsUnsupported)]
  {
    Step(s.(hasUnreadNotifications := false), [Speak(NotificationsUnsupported)])
  }

  /** `makeCall`. */
  function CallPlaced(number: string, p: Platform): seq<Event> {
    if p.dialerWorks then [OpenDialer(number)] else [Speak(CallError)]
  }

  /** `sendMessage`. */
  function MessageSent(to: string, body: string, p: Platform): seq<Event> {
    if p.smsWorks then [OpenSms(to, body)] else [Speak(SmsError)]
  }

  /** The action kinds that are never dispatched: an entry that is not an object,
      NAVIGATE without destination, CALL without number, SEND_MESSAGE without
      recipient or text, SPEAK_ONLY and every unknown type. */
  predicate Rejected(action: JValue) {
    if !action.JObject? then true
    else
      var a := action.fields;
      var t := OptStringOr(a, "type", "");
      || (t == "NAVIGATE" && OptStringOr(a, "destination", "") == "")
      || (t == "CALL" && OptStringOr(a, "number", "") == "")
      || (t == "SEND_MESSAGE" && (OptStringOr(a, "to", "") == "" || OptStringOr(a, "message", "") == ""))
      || t == "SPEAK_ONLY"
      || (t != "NAVIGATE" && t != "PLAY_MUSIC" && t != "ADJUST_VOLUME" && t != "READ_NOTIFICATIONS"
          && t != "CALL" && t != "SEND_MESSAGE")
  }

  /** The type of an action entry, "" when absent. */
  function ActionType(action: JValue): string {
    if action.JObject? then OptStringOr(action.fields, "type", "") else ""
  }

  /** One pass of the action loop of `processGeminiResponse`. */
  function Dispatch(s: SystemState, action: JValue, p: Platform): Step {
    if !action.JObject? then Step(s, [])
    else
      var a := action.fields;
      var actionType := OptStringOr(a, "type", "");
      if actionType == "NAVIGATE" then
        var destination := OptStringOr(a, "destination", "");
        if destination != "" then NavigationStarted(s, destination, p) else Step(s, [])
      else if actionType == "PLAY_MUSIC" then
        MusicControlled(s, MusicCommandAsWritten(a), OptString(a, "song"), OptString(a, "artist"), p)
      else if actionType == "ADJUST_VOLUME" then
        VolumeAdjusted(s, OptInt(a, "level", -1), p)
      else if actionType == "READ_NOTIFICATIONS" then
        NotificationsRead(s)
      else if actionType == "CALL" then
        var number := OptStringOr(a, "number", "");
        if number != "" then Step(s, CallPlaced(number, p)) else Step(s, [])
      else if actionType == "SEND_MESSAGE" then
        var to := OptStringOr(a, "to", "");
        var message := OptStringOr(a, "message", "");
        if to != "" && message != "" then Step(s, MessageSent(to, message, p)) else Step(s, [])
      else Step(s, [])
  }

  /** A rejected action is skipped: no state change and no effect. */
  lemma DispatchRejected(s: SystemState, action: JValue, p: Platform)
    requires Rejected(action)
    ensures Dispatch(s, action, p) == Step(s, [])
  {
  }

  /** Only NAVIGATE, PLAY_MUSIC, ADJUST_VOLUME and READ_NOTIFICATIONS change the state;
      CALL and SEND_MESSAGE only open an app. */
  lemma DispatchStateChange(s: SystemState, action: JValue, p: Platform)
    ensures Dispatch(s, action, p).state != s ==>
              ActionType(action) in {"NAVIGATE", "PLAY_MUSIC", "ADJUST_VOLUME", "READ_NOTIFICATIONS"}
  {
  }

  /** As written, a PLAY_MUSIC action without a command sends nothing and changes nothing. */
  lemma PlayMusicWithoutCommandAsWritten(s: SystemState, p: Platform)
    ensures Dispatch(s, JObject(map["type" := JString("PLAY_MUSIC")]), p) == Step(s, [])
  {
    MissingMusicCommandAsWritten(s, p);
  }

  /** An ADJUST_VOLUME action without a level asks for -1 and is refused. */
  lemma VolumeWithoutLevelRejected(s: SystemState, p: Platform)
    ensures Dispatch(s, JObject(map["type" := JString("ADJUST_VOLUME")]), p).state == s
  {
  }

  /** Running `step` over a list of actions, each seeing the state the previous
      ones left, with the effects concatenated in order. */
  function Run(s: SystemState, actions: seq<JValue>, step: (SystemState, JValue) -> Step): Step
    decreases |actions|
  {
    if actions == [] then Step(s, [])
    else
      var prev := Run(s, actions[..|actions| - 1], step);
      var last := step(prev.state, actions[|actions| - 1]);
      Step(last.state, prev.events + last.events)
  }

  lemma RunSingle(s: SystemState, x: JValue, step: (SystemState, JValue) -> Step)
    ensures Run(s, [x], step) == step(s, x)
  {
    assert [x][..0] == [];
    assert [] + step(s, x).events == step(s, x).events;
  }

  lemma {:induction false} RunAppend(s: SystemState, a: seq<JValue>, b: seq<JValue>, step: (SystemState, JValue) -> Step)
    ensures Run(s, a + b, step) ==
            var first := Run(s, a, step);
            var rest := Run(first.state, b, step);
            Step(rest.state, first.events + rest.events)
    decreases |b|
  {
    if b == [] {
      assert a + b == a;
    } else {
      var init := b[..|b| - 1];
      assert (a + b)[..|a + b| - 1] == a + init;
      assert (a + b)[|a + b| - 1] == b[|b| - 1];
      RunAppend(s, a, init, step);
      var first := Run(s, a, step);
      var mid := Run(first.state, init, step);
      var d := step(mid.state, b[|b| - 1]);
      assert first.events + mid.events + d.events == first.events + (mid.events + d.events);
    }
  }

  /** One pass of the action loop, as a step function. */
  function DispatchStep(p: Platform): (SystemState, JValue) -> Step {
    (st: SystemState, action: JValue) => Dispatch(st, action, p)
  }

  /** The whole action loop of `processGeminiResponse`. */
  function DispatchAll(s: SystemState, actions: seq<JValue>, p: Platform): Step {
    Run(s, actions, DispatchStep(p))
  }

  /** One more action: the loop's next pass runs on the state the earlier ones left. */
  lemma DispatchAllSnoc(s: SystemState, xs: seq<JValue>, x: JValue, p: Platform)
    ensures DispatchAll(s, xs + [x], p) ==
            var prev := DispatchAll(s, xs, p);
            var last := Dispatch(prev.state, x, p);
            Step(last.state, prev.events + last.events)
  {
    assert (xs + [x])[..|xs|] == xs;
    assert DispatchStep(p)(DispatchAll(s, xs, p).state, x) == Dispatch(DispatchAll(s, xs, p).state, x, p);
  }

  /** A one-action list is that action's dispatch. */
  lemma DispatchAllSingle(s: SystemState, action: JValue, p: Platform)
    ensures DispatchAll(s, [action], p) == Dispatch(s, action, p)
  {
    RunSingle(s, action, DispatchStep(p));
  }

  /** Running two lists of actions one after the other is running their concatenation. */
  lemma DispatchAllAppend(s: SystemState, a: seq<JValue>, b: seq<JValue>, p: Platform)
    ensures DispatchAll(s, a + b, p) ==
            var first := DispatchAll(s, a, p);
            var rest := DispatchAll(first.state, b, p);
            Step(rest.state, first.events + rest.events)
  {
    RunAppend(s, a, b, DispatchStep(p));
  }

  /** A step that does nothing where it runs can be dropped from the list. */
  lemma RunSkip(s: SystemState, before: seq<JValue>, x: JValue, after: seq<JValue>, step: (SystemState, JValue) -> Step)
    requires step(Run(s, before, step).state, x) == Step(Run(s, before, step).state, [])
    ensures Run(s, before + [x] + after, step) == Run(s, before + after, step)
  {
    RunAppend(s, before + [x], after, step);
    RunAppend(s, before, [x], step);
    RunAppend(s, before, after, step);
    RunSingle(Run(s, before, step).state, x, step);
  }

  /** A rejected action (say, an unknown type) does not stop or change the actions
      around it: the result is that of the list without it. */
  lemma RejectedActionSkipped(s: SystemState, before: seq<JValue>, action: JValue, after: seq<JValue>, p: Platform)
    requires Rejected(action)
    ensures DispatchAll(s, before + [action] + after, p) == DispatchAll(s, before + after, p)
  {
    var mid := Run(s, before, DispatchStep(p)).state;
    assert DispatchStep(p)(mid, action) == Dispatch(mid, action, p);
    DispatchRejected(mid, action, p);
    RunSkip(s, before, action, after, DispatchStep(p));
  }

  /** An unknown action followed by a CALL with a number still opens the dialer. */
  lemma CallAfterUnknownAction(s: SystemState, unknown: JValue, number: string, p: Platform)
    requires unknown.JObject? && ActionType(unknown) == "UNKNOWN"
    requires number != "" && p.dialerWorks
    ensures DispatchAll(s, [unknown, JObject(map["type" := JString("CALL"), "number" := JString(number)])], p).events
            == [OpenDialer(number)]
  {
    var call := JObject(map["type" := JString("CALL"), "number" := JString(number)]);
    RejectedActionSkipped(s, [], unknown, [call], p);
    assert [] + [unknown] + [call] == [unknown, call];
    assert [] + [call] == [call];
    DispatchAllSingle(s, call, p);
  }

  // ---------------------------------------------------------------------------
  // The whole reply
  // ---------------------------------------------------------------------------

  const DefaultSpoken := "Desculpe, tive dificuldade em processar a resposta."
  const NotUnderstood := "Desculpe, não entendi a resposta do assistente."
  const ProcessingError := "Ocorreu um erro ao processar. Tente novamente."
  const NoReplyText := "Desculpe, não recebi uma resposta válida."

  /** The reply is a JSON object (`JSONObject(text)` succeeds). */
  predicate IsObject(reply: Option<JValue>) {
    reply.Some? && reply.value.JObject?
  }

  /** The `KittResponse` that `processGeminiResponse` returns. */
  function ResponseOf(reply: Option<JValue>): (r: KittResponse)
    ensures !IsObject(reply) ==> r == KittResponse(NotUnderstood, None)
    ensures IsObject(reply) && OptString(reply.value.fields, "response").None? ==> r.spokenResponse == DefaultSpoken
    ensures IsObject(reply) && OptString(reply.value.fields, "response").Some? ==>
              r.spokenResponse == OptString(reply.value.fields, "response").value
    ensures r.uiUpdate.Some? ==> IsObject(reply) && OptObject(reply.value.fields, "ui_update").Some?
    ensures IsObject(reply) && OptObject(reply.value.fields, "ui_update").Some? ==>
              r.uiUpdate == UiUpdateOf(OptObject(reply.value.fields, "ui_update").value)
  {
    if !IsObject(reply) then KittResponse(NotUnderstood, None)
    else
      var json := reply.value.fields;
      KittResponse(OptStringOr(json, "response", DefaultSpoken),
                   match OptObject(json, "ui_update")
                   case None => None
                   case Some(ui) => UiUpdateOf(ui))
  }

  /** The state and effects of `processGeminiResponse`: context updates first, then
      the actions in order; nothing at all for a reply that is not a JSON object. */
  function ReplyStep(s: SystemState, reply: Option<JValue>, p: Platform): (r: Step)
    ensures !IsObject(reply) ==> r == Step(s, [])
  {
    if !IsObject(reply) then Step(s, [])
    else
      var json := reply.value.fields;
      DispatchAll(ContextUpdated(s, OptObject(json, "context_updates")), OptArray(json, "actions").GetOr([]), p)
  }

  /** With no actions, the reply's only effect on the state is its context update. */
  lemma ReplyWithoutActions(s: SystemState, json: JObj, p: Platform)
    requires OptArray(json, "actions").GetOr([]) == []
    ensures ReplyStep(s, Some(JObject(json)), p) == Step(ContextUpdated(s, OptObject(json, "context_updates")), [])
  {
  }

  /** Actions run after the context updates: a NAVIGATE action wins over a context
      update that says the car is not navigating. */
  lemma NavigationAfterContextUpdate(s: SystemState, json: JObj, destination: string, p: Platform)
    requires destination != "" && p.navigationWorks
    requires OptArray(json, "actions") ==
             Some([JObject(map["type" := JString("NAVIGATE"), "destination" := JString(destination)])])
    ensures ReplyStep(s, Some(JObject(json)), p).state.isNavigating
    ensures ReplyStep(s, Some(JObject(json)), p).state.currentDestination == Some(destination)
    ensures ReplyStep(s, Some(JObject(json)), p).events == [OpenNavigation(destination)]
  {
    var nav := JObject(map["type" := JString("NAVIGATE"), "destination" := JString(destination)]);
    DispatchAllSingle(ContextUpdated(s, OptObject(json, "context_updates")), nav, p);
  }

  /** The reply `{"response":"Ok","actions":[],"context_updates":{},"ui_update":null}`. */
  function OkReply(): JValue {
    JObject(map["response" := JString("Ok"), "actions" := JArray([]),
                "context_updates" := JObject(map[]), "ui_update" := JNull])
  }

  /** It yields the spoken text "Ok", no descriptor, and no change or effect. */
  lemma OkReplyOutcome(s: SystemState, p: Platform)
    ensures ResponseOf(Some(OkReply())) == KittResponse("Ok", None)
    ensures ReplyStep(s, Some(OkReply()), p) == Step(s, [])
  {
  }

  /** The response `processInput` hands to its callback. */
  function InputResponse(outcome: ModelOutcome): (r: KittResponse)
    ensures outcome.CallFailed? ==> r == KittResponse(ProcessingError, None)
    ensures outcome.NoText? ==> r == KittResponse(NoReplyText, None)
    ensures outcome.Reply? ==> r == ResponseOf(outcome.parsed)
  {
    match outcome
    case CallFailed => KittResponse(ProcessingError, None)
    case NoText => KittResponse(NoReplyText, None)
    case Reply(_, parsed) => ResponseOf(parsed)
  }

  /** The state change and effects of `processInput`: only a model reply acts. */
  function InputStep(s: SystemState, outcome: ModelOutcome, p: Platform): Step {
    if outcome.Reply? then ReplyStep(s, outcome.parsed, p) else Step(s, [])
  }

  /** The history after `processInput`: the user's entry, then the model's raw reply
      when there is one, each followed by trimming. */
  function HistoryAfter(h: seq<Content>, input: string, outcome: ModelOutcome): seq<Content> {
    var withUser := Trimmed(h + [UserContent(input)]);
    if outcome.Reply? then Trimmed(withUser + [ModelContent(outcome.raw)]) else withUser
  }

  // ---------------------------------------------------------------------------
  // The manager
  // ---------------------------------------------------------------------------

  /** `ConversationManager`: its history, its `SystemState` snapshot and the
      platform effects it has caused. */
  class ConversationManager {
    var history: seq<Content>
    var state: SystemState
    var events: seq<Event>

    /** `initialVolume` is what `getStreamVolume` returned, `None` if it threw. */
    constructor (initialVolume: Option<int>)
      ensures history == [] && events == []
      ensures state == InitialState(initialVolume.GetOr(0))
    {
      history := [];
      state := InitialState(initialVolume.GetOr(0));
      events := [];
    }

    /** `updateHistory`: append the entries given, then drop pairs from the front. */
    method UpdateHistory(user: Option<Content>, model: Option<Content>)
      modifies this`history
      ensures history == Trimmed(old(history) + Present(user) + Present(model))
      ensures |history| <= 2 * MaxHistory
    {
      ghost var appended := history + Present(user) + Present(model);
      if user.Some? {
        history := history + [user.value];
      }
      if model.Some? {
        history := history + [model.value];
      }
      assert history == appended;
      while |history| > 2 * MaxHistory
        invariant Trimmed(history) == Trimmed(appended)
        decreases |history|
      {
        assert history[1..][1..] == history[2..];
        history := history[1..];
        history := history[1..];
      }
      TrimmedWindow(appended);
    }

    /** `processInput`, made synchronous: the outcome of the model call is given.
        Returns the response and the history section of the prompt that was sent. */
    method ProcessInput(input: string, outcome: ModelOutcome, p: Platform)
      returns (response: KittResponse, promptHistory: string)
      modifies this
      ensures response == InputResponse(outcome)
      ensures promptHistory == PromptHistory(Trimmed(old(history) + [UserContent(input)]))
      ensures history == HistoryAfter(old(history), input, outcome)
      ensures state == InputStep(old(state), outcome, p).state
      ensures events == old(events) + InputStep(old(state), outcome, p).events
    {
      UpdateHistory(Some(UserContent(input)), None);
      assert old(history) + Present(Some(UserContent(input))) + Present(None) == old(history) + [UserContent(input)];
      promptHistory := PromptHistory(history);
      match outcome
      case CallFailed =>
        response := KittResponse(ProcessingError, None);
      case NoText =>
        response := KittResponse(NoReplyText, None);
      case Reply(raw, parsed) =>
        ghost var withUser := history;
        UpdateHistory(None, Some(ModelContent(raw)));
        assert withUser + Present(None) + Present(Some(ModelContent(raw))) == withUser + [ModelContent(raw)];
        response := ProcessGeminiResponse(parsed, p);
    }

    /** `processGeminiResponse`. */
    method ProcessGeminiResponse(reply: Option<JValue>, p: Platform) returns (response: KittResponse)
      modifies this`state, this`events
      ensures response == ResponseOf(reply)
      ensures state == ReplyStep(old(state), reply, p).state
      ensures events == old(events) + ReplyStep(old(state), reply, p).events
    {
      if !IsObject(reply) {
        return KittResponse(NotUnderstood, None);
      }
      var json := reply.value.fields;
      var spokenResponse := OptStringOr(json, "response", DefaultSpoken);
      var actions := OptArray(json, "actions").GetOr([]);
      var contextUpdates := OptObject(json, "context_updates");
      var uiUpdateJson := OptObject(json, "ui_update");

      ApplyContextUpdates(contextUpdates);

      var uiUpdate: Option<UiUpdate> := None;
      if uiUpdateJson.Some? {
        uiUpdate := ParseUiUpdate(uiUpdateJson.value);
      }

      ExecuteActions(actions, p);
      response := KittResponse(spokenResponse, uiUpdate);
    }

    /** The action loop of `processGeminiResponse`. */
    method ExecuteActions(actions: seq<JValue>, p: Platform)
      modifies this`state, this`events
      ensures state == DispatchAll(old(state), actions, p).state
      ensures events == old(events) + DispatchAll(old(state), actions, p).events
    {
      for i := 0 to |actions|
        invariant state == DispatchAll(old(state), actions[..i], p).state
        invariant events == old(events) + DispatchAll(old(state), actions[..i], p).events
      {
        assert actions[..i + 1] == actions[..i] + [actions[i]];
        DispatchAllSnoc(old(state), actions[..i], actions[i], p);
        ExecuteAction(actions[i], p);
      }
      assert actions[..|actions|] == actions;
    }

    /** The `context_updates` block: copy the named fields, write only on change. */
    method ApplyContextUpdates(updates: Option<JObj>)
      modifies this`state
      ensures state == ContextUpdated(old(state), updates)
    {
      if updates.Some? && |updates.value| > 0 {
        var cu := updates.value;
        var currentState := state;
        if "isNavigating" in cu {
          currentState := currentState.(isNavigating := OptBoolean(cu, "isNavigating", currentState.isNavigating));
        }
        if "currentDestination" in cu {
          currentState := currentState.(currentDestination := TextUpdate(cu, "currentDestination", currentState.currentDestination));
        }
        if "isPlayingMusic" in cu {
          currentState := currentState.(isPlayingMusic := OptBoolean(cu, "isPlayingMusic", currentState.isPlayingMusic));
        }
        if "currentSong" in cu {
          currentState := currentState.(currentSong := TextUpdate(cu, "currentSong", currentState.currentSong));
        }
        if "currentArtist" in cu {
          currentState := currentState.(currentArtist := TextUpdate(cu, "currentArtist", currentState.currentArtist));
        }
        assert currentState == ContextUpdated(state, updates);
        if currentState != state {
          state := currentState;
        }
      }
    }

    /** The body of the action loop: the `when` over the action's type. */
    method ExecuteAction(action: JValue, p: Platform)
      modifies this`state, this`events
      ensures state == Dispatch(old(state), action, p).state
      ensures events == old(events) + Dispatch(old(state), action, p).events
    {
      if !action.JObject? {
        return;
      }
      var a := action.fields;
      var actionType := OptStringOr(a, "type", "");
      if actionType == "NAVIGATE" {
        var destination := OptStringOr(a, "destination", "");
        if destination != "" {
          StartNavigation(destination, p);
        }
      } else if actionType == "PLAY_MUSIC" {
        ControlMusic(MusicCommandAsWritten(a), OptString(a, "song"), OptString(a, "artist"), p);
      } else if actionType == "ADJUST_VOLUME" {
        AdjustVolume(OptInt(a, "level", -1), p);
      } else if actionType == "READ_NOTIFICATIONS" {
        ReadNotifications();
      } else if actionType == "CALL" {
        var number := OptStringOr(a, "number", "");
        if number != "" {
          MakeCall(number, p);
        }
      } else if actionType == "SEND_MESSAGE" {
        var to := OptStringOr(a, "to", "");
        var message := OptStringOr(a, "message", "");
        if to != "" && message != "" {
          SendMessage(to, message, p);
        }
      }
    }

    method StartNavigation(destination: string, p: Platform)
      modifies this`state, this`events
      ensures state == NavigationStarted(old(state), destination, p).state
      ensures events == old(events) + NavigationStarted(old(state), destination, p).events
    {
      if p.navigationWorks {
        events := events + [OpenNavigation(destination)];
        state := state.(isNavigating := true, currentDestination := Some(destination));
      } else {
        events := events + [Speak(NavigationError)];
      }
    }

    method ControlMusic(command: string, song: Option<string>, artist: Option<string>, p: Platform)
      modifies this`state, this`events
      ensures state == MusicControlled(old(state), command, song, artist, p).state
      ensures events == old(events) + MusicControlled(old(state), command, song, artist, p).events
    {
      var action := MusicAction(command);
      if action.Some? {
        if p.broadcastWorks {
          events := events + [Broadcast(action.value)];
          var newIsPlayingMusic := PlayingAfter(command, state.isPlayingMusic);
          state := state.(
            isPlayingMusic := newIsPlayingMusic,
            currentSong := if command == "play" && song.Some? then song else state.currentSong,
            currentArtist := if command == "play" && artist.Some? then artist else state.currentArtist);
        } else {
          events := events + [Speak(MusicError)];
        }
      }
    }

    method AdjustVolume(level: int, p: Platform)
      modifies this`state, this`events
      ensures state == VolumeAdjusted(old(state), level, p).state
      ensures events == old(events) + VolumeAdjusted(old(state), level, p).events
    {
      if !p.volumeWorks {
        events := events + [Speak(VolumeError)];
      } else if 0 <= level <= p.maxVolume {
        var safeLevel := Clamp(level, 0, p.maxVolume);
        events := events + [SetStreamVolume(safeLevel)];
        state := state.(volume := safeLevel);
      } else {
        events := events + [Speak(VolumeRejected)];
      }
    }

    method ReadNotifications()
      modifies this`state, this`events
      ensures state == NotificationsRead(old(state)).state
      ensures events == old(events) + NotificationsRead(old(state)).events
    {
      events := events + [Speak(NotificationsUnsupported)];
      state := state.(hasUnreadNotifications := false);
    }

    method MakeCall(number: string, p: Platform)
      modifies this`events
      ensures events == old(events) + CallPlaced(number, p)
    {
      if p.dialerWorks {
        events := events + [OpenDialer(number)];
      } else {
        events := events + [Speak(CallError)];
      }
    }

    method SendMessage(to: string, body: string, p: Platform)
      modifies this`events
      ensures events == old(events) + MessageSent(to, body, p)
    {
      if p.smsWorks {
        events := events + [OpenSms(to, body)];
      } else {
        events := events + [Speak(SmsError)];
      }
    }
  }
}
