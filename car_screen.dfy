/** The Android Auto screen of the KITT assistant (`MainCarScreen` in
    MainCarSession.kt): the busy flag, the UI descriptor being shown and the last
    spoken text; how a response replaces the descriptor; which template is built
    from it; and the list-click and error paths.

    The car-app template builders become the `Template` datatype. The speech
    recogniser, the permission dialogs and the text-to-speech engine are parameters
    or logs: `toasts` holds the CarToast texts shown, `spoken` the texts handed to
    text-to-speech, `commands` the texts handed to the conversation manager, and
    `invalidations` counts the redraw requests. */
module CarScreen {
  import opened Common
  import opened Json
  import opened Conversation

  const ReadyText := "KITT pronto."
  const WelcomeText := "KITT pronto. Toque para interagir."
  const AppTitle := "KITT"
  const Ellipsis := "..."
  const NotReady := "Assistente não está pronto."
  const VoiceSystemError := "Erro no sistema de voz."
  const LoadError := "Falha ao carregar assistente."
  const InitErrorPrefix := "Erro na inicialização: "
  const PermissionPrefix := "KITT precisa das seguintes permissões para funcionar corretamente: "
  const MicStartError := "Erro ao iniciar microfone."
  const MicActivationError := "Erro ao ativar microfone."
  const MicPermissionNeeded := "Permissão de microfone necessária para usar a voz"
  const ProcessingPrefix := "Processando: "
  const InvalidItem := "Ação inválida para este item"

  /** What a list row's click listener passes to `handleListItemClick`. */
  datatype ListClick = ListClick(actionId: Option<string>, title: string)

  datatype Row = Row(title: string, texts: seq<string>, onClick: Option<ListClick>)

  /** The three car templates; every one carries the talk action, enabled or not. */
  datatype Template =
    | MessageTemplate(message: string, title: string, talkEnabled: bool)
    | PaneTemplate(title: string, rows: seq<Row>, talkEnabled: bool)
    | ListTemplate(title: string, rows: seq<Row>, talkEnabled: bool)

  /** A MESSAGE descriptor showing `text`. */
  function MessageUi(text: string): UiUpdate {
    UiUpdate(Message, None, Some(text), None, None)
  }

  /** The descriptor the screen shows after a response: the response's own, or a
      MESSAGE with the spoken text when it has none. */
  function DescriptorFor(response: KittResponse): (u: UiUpdate)
    ensures response.uiUpdate.Some? ==> u == response.uiUpdate.value
    ensures response.uiUpdate.None? ==> u.templateType == Message && u.primaryText == Some(response.spokenResponse)
  {
    response.uiUpdate.GetOr(MessageUi(response.spokenResponse))
  }

  /** The reply `{"response":"Ok", ..., "ui_update":null}` does not keep the
      descriptor on screen: it is replaced by a MESSAGE showing "Ok". */
  lemma OkReplyReplacesDescriptor()
    ensures DescriptorFor(ResponseOf(Some(OkReply()))) == MessageUi("Ok")
  {
    OkReplyOutcome(InitialState(0), Platform(0, true, true, true, true, true));
  }

  function TextRow(text: string): Row {
    Row(text, [], None)
  }

  /** The row built for one list item: its title, its description as text, and a
      click that reports the item's action id and title. */
  function ItemRow(item: UiListItem): Row {
    Row(item.title, Present(item.description), Some(ListClick(item.actionId, item.title)))
  }

  function ItemRows(items: seq<UiListItem>): seq<Row>
    decreases |items|
  {
    if items == [] then [] else ItemRows(items[..|items| - 1]) + [ItemRow(items[|items| - 1])]
  }

  /** A list has exactly one row per item, in the items' order. */
  lemma {:induction false} ItemRowsShape(items: seq<UiListItem>)
    ensures |ItemRows(items)| == |items|
    ensures forall k :: 0 <= k < |items| ==> ItemRows(items)[k] == ItemRow(items[k])
    decreases |items|
  {
    if items != [] {
      ItemRowsShape(items[..|items| - 1]);
    }
  }

  /** As written, an untitled LIST item gets a row whose click reports the empty
      title, which `handleListItemClick` refuses with "Ação inválida para este item". */
  lemma UntitledItemRowAsWritten(busy: bool)
    ensures UiUpdateOf(map["template_type" := JString("LIST"), "items" := JArray([JObject(map[])])]).Some?
    ensures ListTemplateOf(UiUpdateOf(map["template_type" := JString("LIST"), "items" := JArray([JObject(map[])])]).value, busy).rows
            == [Row("", [], Some(ListClick(None, "")))]
  {
    UntitledListItemAsWritten();
    ItemRowsShape([UiListItem("", None, None)]);
  }

  function RowTitles(rows: seq<Row>): seq<string> {
    seq(|rows|, i requires 0 <= i < |rows| => rows[i].title)
  }

  function MessageTemplateOf(ui: UiUpdate, busy: bool): Template {
    MessageTemplate(ui.primaryText.GetOr(Ellipsis), AppTitle, !busy)
  }

  function PaneRows(ui: UiUpdate): seq<Row> {
    (if ui.primaryText.Some? then [TextRow(ui.primaryText.value)] else [])
    + (if ui.secondaryText.Some? then [TextRow(ui.secondaryText.value)] else [])
  }

  function PaneTemplateOf(ui: UiUpdate, busy: bool): Template {
    PaneTemplate(ui.title.GetOr(AppTitle), PaneRows(ui), !busy)
  }

  function ListTemplateOf(ui: UiUpdate, busy: bool): Template {
    ListTemplate(ui.title.GetOr(AppTitle), ItemRows(ui.items.GetOr([])), !busy)
  }

  /** The template `onGetTemplate` renders for a descriptor, the last spoken text and
      the busy flag. */
  function TemplateFor(current: Option<UiUpdate>, lastSpoken: string, busy: bool): (t: Template)
    ensures t.talkEnabled == !busy
    ensures current.None? ==>
              t == MessageTemplate(if lastSpoken == "" then ReadyText else lastSpoken, AppTitle, !busy)
    ensures current.Some? ==>
              && (t.MessageTemplate? <==> current.value.templateType == Message)
              && (t.PaneTemplate? <==> current.value.templateType == Pane)
              && (t.ListTemplate? <==> current.value.templateType == List)
    ensures t.MessageTemplate? ==> t.title == AppTitle
    ensures current.Some? && t.MessageTemplate? ==> t.message == current.value.primaryText.GetOr(Ellipsis)
    ensures current.Some? && !t.MessageTemplate? ==> t.title == current.value.title.GetOr(AppTitle)
    ensures current.Some? && t.PaneTemplate? ==>
              && RowTitles(t.rows) == Present(current.value.primaryText) + Present(current.value.secondaryText)
              && forall k :: 0 <= k < |t.rows| ==> t.rows[k].texts == [] && t.rows[k].onClick.None?
    ensures current.Some? && t.ListTemplate? ==>
              && |t.rows| == |current.value.items.GetOr([])|
              && forall k :: 0 <= k < |t.rows| ==> t.rows[k] == ItemRow(current.value.items.GetOr([])[k])
  {
    match current
    case None => MessageTemplateOf(MessageUi(if lastSpoken == "" then ReadyText else lastSpoken), busy)
    case Some(ui) =>
      match ui.templateType
      case Pane => PaneTemplateOf(ui, busy)
      case List => ItemRowsShape(ui.items.GetOr([])); ListTemplateOf(ui, busy)
      case Message => MessageTemplateOf(ui, busy)
  }

  /** `MainCarScreen`. */
  class MainCarScreen {
    var isBusy: bool
    var currentUiUpdate: Option<UiUpdate>
    var lastSpokenText: string
    /** The `lateinit` conversation manager; null until text-to-speech is up. */
    var manager: ConversationManager?
    /** `tts != null`. */
    var ttsReady: bool
    var invalidations: nat
    var toasts: seq<string>
    var spoken: seq<string>
    var commands: seq<string>

    /** A descriptor is always set: the null branch of `onGetTemplate` is never taken. */
    ghost predicate Valid()
      reads this
    {
      currentUiUpdate.Some?
    }

    constructor ()
      ensures Valid()
      ensures currentUiUpdate == Some(MessageUi(WelcomeText)) && lastSpokenText == "" && !isBusy
      ensures manager == null && ttsReady
      ensures invalidations == 0 && toasts == [] && spoken == [] && commands == []
    {
      isBusy := false;
      currentUiUpdate := Some(MessageUi(WelcomeText));
      lastSpokenText := "";
      manager := null;
      ttsReady := true;
      invalidations := 0;
      toasts := [];
      spoken := [];
      commands := [];
    }

    /** `setBusyState`: a change of the flag, and only a change, requests a redraw. */
    method SetBusyState(busy: bool)
      modifies this`isBusy, this`invalidations
      ensures isBusy == busy
      ensures invalidations == old(invalidations) + (if old(isBusy) != busy then 1 else 0)
    {
      if isBusy != busy {
        isBusy := busy;
        InvalidateScreen();
      }
    }

    method InvalidateScreen()
      modifies this`invalidations
      ensures invalidations == old(invalidations) + 1
    {
      invalidations := invalidations + 1;
    }

    /** The text-to-speech callback: on success the manager is created. */
    method OnTtsInit(success: bool, initialVolume: Option<int>)
      requires Valid()
      modifies this`manager, this`currentUiUpdate, this`lastSpokenText, this`isBusy, this`invalidations
      ensures Valid()
      ensures success && ttsReady ==>
                && manager != null && fresh(manager)
                && manager.history == [] && manager.events == []
                && manager.state == InitialState(initialVolume.GetOr(0))
                && invalidations == old(invalidations) + 1
                && currentUiUpdate == old(currentUiUpdate) && lastSpokenText == old(lastSpokenText)
                && isBusy == old(isBusy)
    ensures !(success && ttsReady) ==>
                && manager == old(manager)
                && currentUiUpdate == Some(MessageUi(InitErrorPrefix + (if success then LoadError else VoiceSystemError)))
                && lastSpokenText == "" && !isBusy
                && invalidations == old(invalidations) + (if old(isBusy) then 1 else 0) + 1
    {
      if success {
        if ttsReady {
          manager := new ConversationManager(initialVolume);
          InvalidateScreen();
        } else {
          ShowInitializationError(LoadError);
        }
      } else {
        ShowInitializationError(VoiceSystemError);
      }
    }

    /** `showPermissionError`. */
    method ShowPermissionError(rejected: seq<string>)
      modifies this`currentUiUpdate, this`lastSpokenText, this`isBusy, this`invalidations
      ensures Valid()
      ensures currentUiUpdate == Some(MessageUi(PermissionPrefix + Join(", ", rejected)))
      ensures lastSpokenText == "" && !isBusy
      ensures invalidations == old(invalidations) + (if old(isBusy) then 1 else 0) + 1
    {
      currentUiUpdate := Some(MessageUi(PermissionPrefix + Join(", ", rejected)));
      lastSpokenText := "";
      SetBusyState(false);
      InvalidateScreen();
    }

    /** `showInitializationError`. */
    method ShowInitializationError(message: string)
      modifies this`currentUiUpdate, this`lastSpokenText, this`isBusy, this`invalidations
      ensures Valid()
      ensures currentUiUpdate == Some(MessageUi(InitErrorPrefix + message))
      ensures lastSpokenText == "" && !isBusy
      ensures invalidations == old(invalidations) + (if old(isBusy) then 1 else 0) + 1
    {
      currentUiUpdate := Some(MessageUi(InitErrorPrefix + message));
      lastSpokenText := "";
      SetBusyState(false);
      InvalidateScreen();
    }

    /** `showTemporaryError`: a toast; the descriptor stays. */
    method ShowTemporaryError(message: string)
      modifies this`isBusy, this`invalidations, this`toasts
      ensures !isBusy && toasts == old(toasts) + [message]
      ensures invalidations == old(invalidations) + (if old(isBusy) then 1 else 0)
    {
      SetBusyState(false);
      toasts := toasts + [message];
    }

    /** The screen's `speak`. */
    method Speak(text: string)
      modifies this`isBusy, this`invalidations, this`toasts, this`spoken
      ensures ttsReady ==> spoken == old(spoken) + [text] && toasts == old(toasts)
                           && isBusy == old(isBusy) && invalidations == old(invalidations)
      ensures !ttsReady ==> spoken == old(spoken) && toasts == old(toasts) + [VoiceSystemError] && !isBusy
                            && invalidations == old(invalidations) + (if old(isBusy) then 1 else 0)
    {
      if !ttsReady {
        ShowTemporaryError(VoiceSystemError);
        SetBusyState(false);
        return;
      }
      spoken := spoken + [text];
    }

    /** The response callback of `processVoiceCommand`: the spoken text is recorded
        and spoken, and the response's descriptor (or a MESSAGE of the spoken text)
        replaces the one shown. */
    method OnResponse(response: KittResponse)
      modifies this`lastSpokenText, this`currentUiUpdate, this`isBusy, this`invalidations, this`toasts, this`spoken
      ensures Valid()
      ensures lastSpokenText == response.spokenResponse
      ensures currentUiUpdate == Some(DescriptorFor(response))
      ensures ttsReady ==> spoken == old(spoken) + [response.spokenResponse] && toasts == old(toasts)
                           && isBusy == old(isBusy) && invalidations == old(invalidations) + 1
      ensures !ttsReady ==> spoken == old(spoken) && toasts == old(toasts) + [VoiceSystemError] && !isBusy
                            && invalidations == old(invalidations) + (if old(isBusy) then 1 else 0) + 1
    {
      lastSpokenText := response.spokenResponse;
      Speak(lastSpokenText);
      currentUiUpdate := Some(response.uiUpdate.GetOr(MessageUi(lastSpokenText)));
      InvalidateScreen();
    }

    /** `processVoiceCommand`, with the manager's `processInput` run synchronously
        on the given model outcome and platform. */
    method ProcessVoiceCommand(command: string, outcome: ModelOutcome, p: Platform)
      requires Valid()
      modifies this`isBusy, this`invalidations, this`toasts, this`spoken, this`commands,
               this`lastSpokenText, this`currentUiUpdate, manager
      ensures Valid()
      ensures manager == null ==>
                && !isBusy && toasts == old(toasts) + [NotReady]
                && commands == old(commands) && spoken == old(spoken)
                && lastSpokenText == old(lastSpokenText) && currentUiUpdate == old(currentUiUpdate)
                && invalidations == old(invalidations) + (if old(isBusy) then 1 else 0)
      ensures manager != null ==>
                && commands == old(commands) + [command]
                && lastSpokenText == InputResponse(outcome).spokenResponse
                && currentUiUpdate == Some(DescriptorFor(InputResponse(outcome)))
                && manager.history == HistoryAfter(old(manager.history), command, outcome)
                && manager.state == InputStep(old(manager.state), outcome, p).state
                && manager.events == old(manager.events) + InputStep(old(manager.state), outcome, p).events
                && isBusy == ttsReady
                && spoken == old(spoken) + (if ttsReady then [lastSpokenText] else [])
                && toasts == old(toasts) + (if ttsReady then [] else [VoiceSystemError])
                && invalidations == old(invalidations) + (if old(isBusy) then 0 else 1) + (if ttsReady then 0 else 1) + 1
    {
      if manager == null {
        ShowTemporaryError(NotReady);
        SetBusyState(false);
        return;
      }
      SetBusyState(true);
      commands := commands + [command];
      var response, _ := manager.ProcessInput(command, outcome, p);
      OnResponse(response);
    }

    /** `startVoiceRecognition` after the microphone permission is settled:
        listening starts only with the permission, a recogniser, when not busy and
        when `startListening` does not throw (`listenWorks`). */
    method StartVoiceRecognition(permissionGranted: bool, recognizerReady: bool, listenWorks: bool)
      returns (listening: bool)
      modifies this`isBusy, this`invalidations, this`toasts
      ensures listening <==> permissionGranted && recognizerReady && !old(isBusy) && listenWorks
      ensures !permissionGranted ==>
                !isBusy && toasts == old(toasts) + [MicPermissionNeeded]
                && invalidations == old(invalidations) + (if old(isBusy) then 1 else 0)
      ensures permissionGranted && !recognizerReady ==>
                !isBusy && toasts == old(toasts) + [MicStartError]
                && invalidations == old(invalidations) + (if old(isBusy) then 1 else 0)
      ensures permissionGranted && recognizerReady && old(isBusy) ==>
                isBusy && toasts == old(toasts) && invalidations == old(invalidations)
      ensures permissionGranted && recognizerReady && !old(isBusy) && listenWorks ==>
                !isBusy && toasts == old(toasts) && invalidations == old(invalidations)
      ensures permissionGranted && recognizerReady && !old(isBusy) && !listenWorks ==>
                !isBusy && toasts == old(toasts) + [MicActivationError] && invalidations == old(invalidations)
    {
      if !permissionGranted {
        toasts := toasts + [MicPermissionNeeded];
        SetBusyState(false);
        return false;
      }
      if !recognizerReady {
        ShowTemporaryError(MicStartError);
        SetBusyState(false);
        return false;
      }
      if isBusy {
        return false;
      }
      if !listenWorks {
        ShowTemporaryError(MicActivationError);
        SetBusyState(false);
        return false;
      }
      listening := true;
    }

    /** The recogniser's `onResults`: the first match becomes a voice command. */
    method OnRecognitionResults(matches: seq<string>, outcome: ModelOutcome, p: Platform)
      requires Valid()
      modifies this`isBusy, this`invalidations, this`toasts, this`spoken, this`commands,
               this`lastSpokenText, this`currentUiUpdate, manager
      ensures Valid()
      ensures matches == [] ==>
                && !isBusy && commands == old(commands) && toasts == old(toasts)
                && lastSpokenText == old(lastSpokenText) && currentUiUpdate == old(currentUiUpdate)
                && spoken == old(spoken) && (manager != null ==> unchanged(manager))
      ensures matches != [] && manager == null ==>
                && !isBusy && toasts == old(toasts) + [NotReady]
                && commands == old(commands) && spoken == old(spoken)
                && lastSpokenText == old(lastSpokenText) && currentUiUpdate == old(currentUiUpdate)
                && invalidations == old(invalidations) + (if old(isBusy) then 1 else 0)
      ensures matches != [] && manager != null ==>
                && commands == old(commands) + [matches[0]]
                && lastSpokenText == InputResponse(outcome).spokenResponse
                && currentUiUpdate == Some(DescriptorFor(InputResponse(outcome)))
                && manager.history == HistoryAfter(old(manager.history), matches[0], outcome)
                && manager.state == InputStep(old(manager.state), outcome, p).state
                && manager.events == old(manager.events) + InputStep(old(manager.state), outcome, p).events
                && isBusy == ttsReady
                && spoken == old(spoken) + (if ttsReady then [lastSpokenText] else [])
                && toasts == old(toasts) + (if ttsReady then [] else [VoiceSystemError])
                && invalidations == old(invalidations) + (if old(isBusy) then 0 else 1) + (if ttsReady then 0 else 1) + 1
    {
      if matches != [] {
        ProcessVoiceCommand(matches[0], outcome, p);
      } else {
        SetBusyState(false);
      }
    }

    /** `handleListItemClick`: a titled item is submitted as a voice command. */
    method HandleListItemClick(actionId: Option<string>, title: string, outcome: ModelOutcome, p: Platform)
      requires Valid()
      modifies this`isBusy, this`invalidations, this`toasts, this`spoken, this`commands,
               this`lastSpokenText, this`currentUiUpdate, manager
      ensures Valid()
      ensures title == "" ==>
                && toasts == old(toasts) + [InvalidItem] && commands == old(commands)
                && isBusy == old(isBusy) && invalidations == old(invalidations)
                && lastSpokenText == old(lastSpokenText) && currentUiUpdate == old(currentUiUpdate)
                && spoken == old(spoken)
                && (manager != null ==> unchanged(manager))
      ensures title != "" ==> |toasts| > |old(toasts)| && toasts[|old(toasts)|] == ProcessingPrefix + title
      ensures title != "" && manager == null ==>
                && !isBusy && toasts == old(toasts) + [ProcessingPrefix + title, NotReady]
                && commands == old(commands) && spoken == old(spoken)
                && lastSpokenText == old(lastSpokenText) && currentUiUpdate == old(currentUiUpdate)
                && invalidations == old(invalidations) + (if old(isBusy) then 1 else 0)
      ensures title != "" && manager != null ==>
                && commands == old(commands) + [title]
                && lastSpokenText == InputResponse(outcome).spokenResponse
                && currentUiUpdate == Some(DescriptorFor(InputResponse(outcome)))
                && manager.history == HistoryAfter(old(manager.history), title, outcome)
                && manager.state == InputStep(old(manager.state), outcome, p).state
                && manager.events == old(manager.events) + InputStep(old(manager.state), outcome, p).events
                && isBusy == ttsReady
                && spoken == old(spoken) + (if ttsReady then [lastSpokenText] else [])
                && toasts == old(toasts) + [ProcessingPrefix + title] + (if ttsReady then [] else [VoiceSystemError])
                && invalidations == old(invalidations) + (if old(isBusy) then 0 else 1) + (if ttsReady then 0 else 1) + 1
    {
      if title != "" {
        toasts := toasts + [ProcessingPrefix + title];
        ProcessVoiceCommand(title, outcome, p);
      } else {
        toasts := toasts + [InvalidItem];
      }
    }

    /** `onDestroy`: text-to-speech is shut down. */
    method OnDestroy()
      modifies this`ttsReady
      ensures !ttsReady
    {
      ttsReady := false;
    }

    method BuildMessageTemplate(ui: UiUpdate) returns (t: Template)
      ensures t == MessageTemplateOf(ui, isBusy)
    {
      t := MessageTemplate(ui.primaryText.GetOr(Ellipsis), AppTitle, !isBusy);
    }

    method BuildPaneTemplate(ui: UiUpdate) returns (t: Template)
      ensures t == PaneTemplateOf(ui, isBusy)
    {
      var rows: seq<Row> := [];
      if ui.primaryText.Some? {
        rows := rows + [TextRow(ui.primaryText.value)];
      }
      if ui.secondaryText.Some? {
        rows := rows + [TextRow(ui.secondaryText.value)];
      }
      t := PaneTemplate(ui.title.GetOr(AppTitle), rows, !isBusy);
    }

    /** `buildListTemplate`: one row per item, added in order. */
    method BuildListTemplate(ui: UiUpdate) returns (t: Template)
      ensures t == ListTemplateOf(ui, isBusy)
    {
      var items := ui.items.GetOr([]);
      var rows: seq<Row> := [];
      for i := 0 to |items|
        invariant rows == ItemRows(items[..i])
      {
        assert items[..i + 1][..i] == items[..i];
        var item := items[i];
        rows := rows + [Row(item.title, Present(item.description), Some(ListClick(item.actionId, item.title)))];
      }
      assert items[..|items|] == items;
      t := ListTemplate(ui.title.GetOr(AppTitle), rows, !isBusy);
    }

    /** `onGetTemplate`. Every assignment to `currentUiUpdate` stores a descriptor
        (`Valid`), so its fallback for a null descriptor is never taken. */
    method OnGetTemplate() returns (t: Template)
      requires Valid()
      ensures t == TemplateFor(currentUiUpdate, lastSpokenText, isBusy)
      ensures t.MessageTemplate? <==> currentUiUpdate.value.templateType == Message
      ensures t.PaneTemplate? <==> currentUiUpdate.value.templateType == Pane
      ensures t.ListTemplate? <==> currentUiUpdate.value.templateType == List
      ensures t.talkEnabled == !isBusy
    {
      match currentUiUpdate
      case Some(ui) =>
        match ui.templateType {
          case Pane => t := BuildPaneTemplate(ui);
          case List => t := BuildListTemplate(ui);
          case Message => t := BuildMessageTemplate(ui);
        }
    }
  }
}
