# KITT car assistant: conversation core and car screen

This project models the core of the KITT Android Auto assistant in Dafny.
KITT is a voice assistant: the driver speaks, a generative model answers with a JSON
reply, and the app turns that reply into speech, car-screen templates and device
actions (navigation, media control, volume, dialer, SMS). The model covers two parts.

- `ConversationManager` (module `Conversation`, file `conversation.dfy`):
  - the conversation history, bounded to twenty entries, and how the history section of the prompt is rendered from it;
  - how `processGeminiResponse` reads the reply: the spoken text with its fallbacks, the `context_updates` block, the `ui_update` descriptor, and the action loop with its NAVIGATE, PLAY_MUSIC, ADJUST_VOLUME, READ_NOTIFICATIONS, CALL, SEND_MESSAGE and SPEAK_ONLY cases;
  - the `SystemState` snapshot and every change the actions make to it;
  - the data classes `KittResponse`, `UiUpdate`, `UiListItem`, `TemplateType` and `SystemState`.
- `MainCarScreen` (module `CarScreen`, file `car_screen.dfy`):
  - the three fields `isBusy`, `currentUiUpdate` and `lastSpokenText`, and how each is set;
  - how a response replaces the descriptor on screen;
  - the template `onGetTemplate` builds, including the MESSAGE, PANE and LIST builders, their defaults, and the talk action, which is disabled while busy;
  - the list-click path, the three error helpers, and the refusal to start listening while busy.
- `common.dfy` holds shared helpers: Kotlin nullables as `Option`, ASCII `uppercase`/`lowercase`, and `joinToString`.
- `json.dfy` holds an already-parsed JSON value and the org.json `opt*` accessors.

Effects on the outside world are recorded, not executed:
- The model call is a parameter, a `ModelOutcome`: the call threw, it returned no text, or it returned a text together with its parsed JSON.
- What the device allows is a parameter, a `Platform`: the maximum volume, and whether each kind of platform call succeeds or throws.
- The manager logs each intent, broadcast, volume change and spoken apology as an `Event`.
- The screen logs the toasts it shows, the texts it speaks, the commands it submits and the redraws it requests.

Where the code and the app's stated design disagree, the model follows the code:
- The prompt tells the model to send `"ui_update": null` when the screen should not change (ConversationManager.kt:176).
- The screen does not keep the previous descriptor in that case. It replaces it with a MESSAGE holding the spoken text (MainCarSession.kt:201-202).
- `CarScreen.DescriptorFor` and `CarScreen.OkReplyReplacesDescriptor` state that behaviour.

## Model

All source paths are below `app/src/main/java/com/example/androidiacar/`; the table
writes them in full.

| member | source | states |
|---|---|---|
| Common.Upper | app/src/main/java/com/example/androidiacar/ai/ConversationManager.kt:269 | upper-casing keeps the length and maps every character to its upper-case form |
| Common.Lower | app/src/main/java/com/example/androidiacar/ai/ConversationManager.kt:413 | lower-casing keeps the length and maps every character to its lower-case form |
| Common.LowerIdempotent | app/src/main/java/com/example/androidiacar/ai/ConversationManager.kt:431 | lower-casing twice equals lower-casing once, so the second `lowercase()` match sees the same command as the first |
| Conversation.TrimmedWindow | app/src/main/java/com/example/androidiacar/ai/ConversationManager.kt:135-138 | trimming leaves at most 20 entries, all a suffix of the history; it drops an even number, oldest first; it stops at 20 or fewer (so 21 entries become 19); a history of 20 or fewer is untouched |
| Conversation.Trimmed | app/src/main/java/com/example/androidiacar/ai/ConversationManager.kt:135-138 | the removal loop: two entries from the front while more than 20 remain |
| Conversation.LastN | app/src/main/java/com/example/androidiacar/ai/ConversationManager.kt:146 | `takeLast(n)` is the last min(n, size) entries |
| Conversation.PromptHistory | app/src/main/java/com/example/androidiacar/ai/ConversationManager.kt:146-149 | the history section: the last ten entries rendered and joined with newlines |
| Conversation.RenderTurn | app/src/main/java/com/example/androidiacar/ai/ConversationManager.kt:147-148 | one line: the role label, ": ", and the parts joined with ", ", a non-text part shown as "[Conteúdo não textual]" |
| Conversation.RoleLabel | app/src/main/java/com/example/androidiacar/ai/ConversationManager.kt:147 | the role with its first character upper-cased, or "Desconhecido" without a role |
| Conversation.PromptHistoryIgnoresOlder | app/src/main/java/com/example/androidiacar/ai/ConversationManager.kt:146 | once ten recent entries exist, older ones do not affect the prompt's history section |
| Conversation.PromptHistoryAppend | app/src/main/java/com/example/androidiacar/ai/ConversationManager.kt:146-149 | below ten entries, a new entry adds exactly one line after a newline and keeps the earlier lines |
| Conversation.RenderedRoles | app/src/main/java/com/example/androidiacar/ai/ConversationManager.kt:147-148 | roles "user" and "model" render as "User: text" and "Model: text"; an entry with no role renders as "Desconhecido: text" |
| Conversation.ContextUpdated | app/src/main/java/com/example/androidiacar/ai/ConversationManager.kt:229-264 | the `context_updates` block as one value: each of the five known keys, when present, rewrites its field through `FlagUpdate` or `TextUpdate` |
| Conversation.FlagUpdate | app/src/main/java/com/example/androidiacar/ai/ConversationManager.kt:235-237 | a flag changes only when its key is present and then takes `optBoolean` with the current value as default |
| Conversation.TextUpdate | app/src/main/java/com/example/androidiacar/ai/ConversationManager.kt:238-254 | a text field changes only when its key is present; `optString` with the current value as default, and "" becomes null |
| Conversation.ContextUpdateFields | app/src/main/java/com/example/androidiacar/ai/ConversationManager.kt:229-264 | a missing or empty `context_updates` changes nothing; volume and unread flag never change; a field whose key is absent keeps its value; an empty string clears a text field to null; a non-empty string is taken as the new text; a boolean is taken as the new flag |
| Conversation.TextUpdateKeeps | app/src/main/java/com/example/androidiacar/ai/ConversationManager.kt:238-243 | a text field keeps its value exactly when the update agrees with it; an empty string agrees only with null |
| Conversation.ContextUpdateNoOp | app/src/main/java/com/example/androidiacar/ai/ConversationManager.kt:257-263 | the state is left unchanged (no write) if and only if the updates are empty or every named field already holds the given value |
| Conversation.ContextUpdateIdempotent | app/src/main/java/com/example/androidiacar/ai/ConversationManager.kt:229-264 | applying the same context updates twice gives the same state as applying them once |
| Conversation.TemplateTypeOf | app/src/main/java/com/example/androidiacar/ai/ConversationManager.kt:270 | `valueOf` returns the constant whose name equals the string, and null only when no constant has that name |
| Conversation.UpperOfTemplateName | app/src/main/java/com/example/androidiacar/ai/ConversationManager.kt:269-270 | upper-casing a template name leaves it unchanged |
| Conversation.TemplateTypeRoundTrip | app/src/main/java/com/example/androidiacar/ai/ConversationManager.kt:269-270 | any spelling whose upper-case form is a template's name selects that template |
| Conversation.LowerCaseTemplateNames | app/src/main/java/com/example/androidiacar/ai/ConversationManager.kt:269-270 | "list" selects LIST and "Pane" selects PANE |
| Conversation.UntitledItemAsWritten | app/src/main/java/com/example/androidiacar/ai/ConversationManager.kt:285 | as written, an item without a title gets "" and never "Item sem título" |
| Conversation.ItemTitleAsWritten | app/src/main/java/com/example/androidiacar/ai/ConversationManager.kt:285 | the title as written: the title string, or "" when absent |
| Conversation.UntitledListItemAsWritten | app/src/main/java/com/example/androidiacar/ai/ConversationManager.kt:266-291 | as written, the LIST descriptor `{"template_type":"LIST","items":[{}]}` holds one item titled "" with no description and no action id |
| Conversation.ItemTitle | app/src/main/java/com/example/androidiacar/ai/ConversationManager.kt:285 | intended title: the item's title string if present, else "Item sem título" |
| Conversation.ItemOf | app/src/main/java/com/example/androidiacar/ai/ConversationManager.kt:284-288 | one item: the as-written title, and the description and action id or null |
| Conversation.ItemsOf | app/src/main/java/com/example/androidiacar/ai/ConversationManager.kt:279-291 | one item per object entry of `items`, in order; other entries are skipped |
| Conversation.ItemsOfAppend | app/src/main/java/com/example/androidiacar/ai/ConversationManager.kt:279-291 | reading list items preserves order: the items of a concatenation are the concatenated items |
| Conversation.ItemsOfSingle | app/src/main/java/com/example/androidiacar/ai/ConversationManager.kt:282-289 | a non-object entry produces no item; an object entry produces exactly its item |
| Conversation.ItemsOfObjects | app/src/main/java/com/example/androidiacar/ai/ConversationManager.kt:279-291 | when every entry is an object, there is one item per entry, in order |
| Conversation.UiUpdateOf | app/src/main/java/com/example/androidiacar/ai/ConversationManager.kt:266-302 | a descriptor exists iff the upper-cased `template_type` names a template, and it has that template; its title, primary and secondary text are the `title`, `primary_text` and `secondary_text` strings or null; only LIST gets items, and only when `items` is an array |
| Conversation.ParseUiUpdate | app/src/main/java/com/example/androidiacar/ai/ConversationManager.kt:266-302 | the item loop builds exactly the descriptor `UiUpdateOf` describes, item titles as written |
| Conversation.NavigationStarted | app/src/main/java/com/example/androidiacar/ai/ConversationManager.kt:377-410 | on success: navigating, destination recorded, intent sent; on failure: the state is unchanged and the navigation apology is spoken |
| Conversation.MusicControlled | app/src/main/java/com/example/androidiacar/ai/ConversationManager.kt:412-448 | unknown command: no effect; broadcast failure: only an apology; success: the command's broadcast; navigation, volume and unread are untouched; on a broadcast that goes through, the playing flag is set for "play", cleared for "pause" and "stop" and kept for "next" and "previous", in any letter case; song and artist change only for the exact command "play" and only when one is given |
| Conversation.MusicCommandCaseInsensitive | app/src/main/java/com/example/androidiacar/ai/ConversationManager.kt:413-435 | the broadcast table and the guessed playing flag do not depend on letter case |
| Conversation.MusicAction | app/src/main/java/com/example/androidiacar/ai/ConversationManager.kt:413-420 | the broadcast table on the lower-cased command; any other command has none |
| Conversation.PlayingAfter | app/src/main/java/com/example/androidiacar/ai/ConversationManager.kt:431-435 | the guessed playing flag: "play" sets it, "pause" and "stop" clear it, anything else keeps it |
| Conversation.MusicPlay | app/src/main/java/com/example/androidiacar/ai/ConversationManager.kt:431-440 | "play" sets playing and takes the song and artist given |
| Conversation.MusicPauseStop | app/src/main/java/com/example/androidiacar/ai/ConversationManager.kt:431-435 | "pause" and "stop" clear playing |
| Conversation.MusicNextPrevious | app/src/main/java/com/example/androidiacar/ai/ConversationManager.kt:412-440 | "next" and "previous" send their broadcast and keep the state unchanged |
| Conversation.UpperCasePlayKeepsSong | app/src/main/java/com/example/androidiacar/ai/ConversationManager.kt:431-439 | "PLAY" starts playback but keeps the old song, because the song and artist test compares case-sensitively |
| Conversation.MissingMusicCommandAsWritten | app/src/main/java/com/example/androidiacar/ai/ConversationManager.kt:327 | as written, a PLAY_MUSIC action with no command does nothing |
| Conversation.MusicCommandAsWritten | app/src/main/java/com/example/androidiacar/ai/ConversationManager.kt:327 | the command as written: the command string, or "" when absent |
| Conversation.PlayMusicWithoutCommandAsWritten | app/src/main/java/com/example/androidiacar/ai/ConversationManager.kt:326-330 | as written, the action `{"type":"PLAY_MUSIC"}` passes through the action loop with no effect and no state change |
| Conversation.MusicCommand | app/src/main/java/com/example/androidiacar/ai/ConversationManager.kt:327 | intended command: the given command, else "play" |
| Conversation.MissingMusicCommandPlays | app/src/main/java/com/example/androidiacar/ai/ConversationManager.kt:327 | with the intended default, a PLAY_MUSIC action with no command sends togglepause and sets playing |
| Conversation.VolumeAdjusted | app/src/main/java/com/example/androidiacar/ai/ConversationManager.kt:450-466 | the volume becomes the level if and only if the level is in [0, max] and the audio manager works; an out-of-range level gives the refusal message; a failing audio manager gives the volume apology |
| Conversation.NotificationsRead | app/src/main/java/com/example/androidiacar/ai/ConversationManager.kt:468-472 | clears the unread flag, changes nothing else, and speaks that reading notifications is not supported |
| Conversation.CallPlaced | app/src/main/java/com/example/androidiacar/ai/ConversationManager.kt:474-486 | the dialer intent for the number, or the spoken apology when it cannot be opened |
| Conversation.MessageSent | app/src/main/java/com/example/androidiacar/ai/ConversationManager.kt:488-501 | the SMS intent to the recipient with the text, or the spoken apology when it cannot be opened |
| Conversation.Dispatch | app/src/main/java/com/example/androidiacar/ai/ConversationManager.kt:315-350 | one pass of the `when`: each action type with its own guard on empty fields calls its operation; everything else is skipped |
| Conversation.DispatchRejected | app/src/main/java/com/example/androidiacar/ai/ConversationManager.kt:309-357 | these entries have no effect and change no state: a non-object entry, NAVIGATE without destination, CALL without number, incomplete SEND_MESSAGE, SPEAK_ONLY, an unknown type |
| Conversation.DispatchStateChange | app/src/main/java/com/example/androidiacar/ai/ConversationManager.kt:315-350 | only NAVIGATE, PLAY_MUSIC, ADJUST_VOLUME and READ_NOTIFICATIONS change the state; CALL and SEND_MESSAGE only open an app |
| Conversation.DispatchAllSnoc | app/src/main/java/com/example/androidiacar/ai/ConversationManager.kt:309-311 | each pass of the loop runs on the state the earlier passes left, and its effects follow theirs |
| Conversation.Run | app/src/main/java/com/example/androidiacar/ai/ConversationManager.kt:309-357 | a loop over the entries, each step on the state the previous ones left, effects in order |
| Conversation.DispatchAll | app/src/main/java/com/example/androidiacar/ai/ConversationManager.kt:309-357 | the action loop: `Dispatch` folded over the `actions` array |
| Conversation.VolumeWithoutLevelRejected | app/src/main/java/com/example/androidiacar/ai/ConversationManager.kt:332-335 | ADJUST_VOLUME without a level asks for -1, which is refused |
| Conversation.RunAppend | app/src/main/java/com/example/androidiacar/ai/ConversationManager.kt:309-357 | for any step function, running over a + b is running over a, then over b starting from the resulting state, with the effects concatenated |
| Conversation.RunSkip | app/src/main/java/com/example/androidiacar/ai/ConversationManager.kt:309-357 | an entry whose step does nothing at its position can be removed without changing the result |
| Conversation.DispatchAllSingle | app/src/main/java/com/example/androidiacar/ai/ConversationManager.kt:309-311 | running a one-action list is dispatching that action |
| Conversation.DispatchAllAppend | app/src/main/java/com/example/androidiacar/ai/ConversationManager.kt:309-357 | the action loop composes: running a + b is running a, then b on the resulting state |
| Conversation.RejectedActionSkipped | app/src/main/java/com/example/androidiacar/ai/ConversationManager.kt:309-357 | a rejected action neither stops the actions around it nor changes their result |
| Conversation.CallAfterUnknownAction | app/src/main/java/com/example/androidiacar/ai/ConversationManager.kt:337-349 | an unknown action followed by a CALL with a number still opens the dialer |
| Conversation.ResponseOf | app/src/main/java/com/example/androidiacar/ai/ConversationManager.kt:217-372 | not a JSON object: "não entendi" and no descriptor; object: its `response` string or the default text; when `ui_update` is an object, the descriptor is `UiUpdateOf` that object, otherwise none |
| Conversation.ReplyStep | app/src/main/java/com/example/androidiacar/ai/ConversationManager.kt:223-363 | a reply that is not a JSON object changes no state and causes no effect |
| Conversation.ReplyWithoutActions | app/src/main/java/com/example/androidiacar/ai/ConversationManager.kt:305-309 | with no actions, the reply's only effect is its context update |
| Conversation.NavigationAfterContextUpdate | app/src/main/java/com/example/androidiacar/ai/ConversationManager.kt:229-320 | actions run after the context updates, so a NAVIGATE action decides the navigation state |
| Conversation.OkReplyOutcome | app/src/main/java/com/example/androidiacar/ai/ConversationManager.kt:217-372 | the reply with response "Ok", no actions, empty context and null UI gives "Ok", no descriptor, and no change |
| Conversation.InputResponse | app/src/main/java/com/example/androidiacar/ai/ConversationManager.kt:93-129 | a failed call gives "Ocorreu um erro…"; no text gives "não recebi…"; a reply gives what processGeminiResponse returns |
| Conversation.InputStep | app/src/main/java/com/example/androidiacar/ai/ConversationManager.kt:93-129 | only a model reply changes state or causes effects |
| Conversation.HistoryAfter | app/src/main/java/com/example/androidiacar/ai/ConversationManager.kt:93-129 | the user entry is added and trimmed, then the raw reply when text arrived, trimmed again |
| Conversation.InitialState | app/src/main/java/com/example/androidiacar/ai/ConversationManager.kt:88 | the default snapshot with the given volume |
| Conversation.ConversationManager.constructor | app/src/main/java/com/example/androidiacar/ai/ConversationManager.kt:81-90 | empty history; default state with the stream volume, or 0 when reading it threw |
| Conversation.ConversationManager.UpdateHistory | app/src/main/java/com/example/androidiacar/ai/ConversationManager.kt:132-139 | the history becomes the trimmed form of the old history plus the given entries, and holds at most 20 entries |
| Conversation.ConversationManager.ProcessInput | app/src/main/java/com/example/androidiacar/ai/ConversationManager.kt:93-129 | the user's entry is added and trimmed before the prompt is built; the prompt shows the last ten entries; the raw reply is added only when text arrived; state and events follow the reply |
| Conversation.ConversationManager.ProcessGeminiResponse | app/src/main/java/com/example/androidiacar/ai/ConversationManager.kt:217-373 | returns `ResponseOf` the reply and applies `ReplyStep`: context updates, then the actions |
| Conversation.ConversationManager.ExecuteActions | app/src/main/java/com/example/androidiacar/ai/ConversationManager.kt:309-357 | the loop's state and events are those of `DispatchAll` |
| Conversation.ConversationManager.ApplyContextUpdates | app/src/main/java/com/example/androidiacar/ai/ConversationManager.kt:229-264 | the chain of copies leaves the state `ContextUpdated` describes, whose field values `ContextUpdateFields` states |
| Conversation.ConversationManager.ExecuteAction | app/src/main/java/com/example/androidiacar/ai/ConversationManager.kt:310-350 | one pass of the `when` changes state and events as `Dispatch` says, the PLAY_MUSIC command as written |
| Conversation.ConversationManager.StartNavigation | app/src/main/java/com/example/androidiacar/ai/ConversationManager.kt:377-410 | state and events as `NavigationStarted` says |
| Conversation.ConversationManager.ControlMusic | app/src/main/java/com/example/androidiacar/ai/ConversationManager.kt:412-448 | state and events as `MusicControlled` says |
| Conversation.ConversationManager.AdjustVolume | app/src/main/java/com/example/androidiacar/ai/ConversationManager.kt:450-466 | state and events as `VolumeAdjusted` says |
| Conversation.ConversationManager.ReadNotifications | app/src/main/java/com/example/androidiacar/ai/ConversationManager.kt:468-472 | state and events as `NotificationsRead` says |
| Conversation.ConversationManager.MakeCall | app/src/main/java/com/example/androidiacar/ai/ConversationManager.kt:474-486 | opens the dialer for the number, or apologises when that fails; the state is unchanged |
| Conversation.ConversationManager.SendMessage | app/src/main/java/com/example/androidiacar/ai/ConversationManager.kt:488-501 | opens SMS to the recipient with the text, or apologises when that fails; the state is unchanged |
| CarScreen.DescriptorFor | app/src/main/java/com/example/androidiacar/MainCarSession.kt:199-202 | the response's own descriptor, otherwise a MESSAGE holding the spoken text |
| CarScreen.OkReplyReplacesDescriptor | app/src/main/java/com/example/androidiacar/MainCarSession.kt:197-204 | a reply with `ui_update` null does not keep the old screen; it shows a MESSAGE "Ok" |
| CarScreen.ItemRowsShape | app/src/main/java/com/example/androidiacar/MainCarSession.kt:351-359 | one row per list item, in order, each a row of that item |
| CarScreen.ItemRow | app/src/main/java/com/example/androidiacar/MainCarSession.kt:351-359 | a row with the item title, the description as its only text line when present, and a click carrying the action id and title |
| CarScreen.ItemRows | app/src/main/java/com/example/androidiacar/MainCarSession.kt:351-359 | one row per item, in order |
| CarScreen.UntitledItemRowAsWritten | app/src/main/java/com/example/androidiacar/MainCarSession.kt:349-359 | as written, the untitled item of a LIST reply becomes a row titled "" with no text, whose click carries no action id and the empty title, the case `HandleListItemClick` refuses |
| CarScreen.MessageTemplateOf | app/src/main/java/com/example/androidiacar/MainCarSession.kt:328-334 | MESSAGE: the primary text or "...", always titled "KITT" whatever the descriptor's title, with the talk action |
| CarScreen.PaneTemplateOf | app/src/main/java/com/example/androidiacar/MainCarSession.kt:336-347 | PANE: the title or "KITT", a row for the primary text and one for the secondary text when present |
| CarScreen.ListTemplateOf | app/src/main/java/com/example/androidiacar/MainCarSession.kt:349-367 | LIST: the title or "KITT", one row per item |
| CarScreen.TemplateFor | app/src/main/java/com/example/androidiacar/MainCarSession.kt:312-381 | the template kind follows the descriptor's type; with no descriptor, MESSAGE with the last spoken text or "KITT pronto."; defaults "..." and "KITT"; PANE rows are primary then secondary text; LIST rows are one per item; talk is enabled iff not busy |
| CarScreen.MainCarScreen.constructor | app/src/main/java/com/example/androidiacar/MainCarSession.kt:38-52 | shows "KITT pronto. Toque para interagir.", not busy, no manager yet |
| CarScreen.MainCarScreen.SetBusyState | app/src/main/java/com/example/androidiacar/MainCarSession.kt:272-278 | sets the flag, and requests a redraw only when the value changes |
| CarScreen.MainCarScreen.InvalidateScreen | app/src/main/java/com/example/androidiacar/MainCarSession.kt:280-285 | requests one redraw |
| CarScreen.MainCarScreen.OnTtsInit | app/src/main/java/com/example/androidiacar/MainCarSession.kt:150-187 | on success a fresh manager with the initial volume and one redraw; otherwise the initialization error "Erro no sistema de voz." or "Falha ao carregar assistente." |
| CarScreen.MainCarScreen.ShowPermissionError | app/src/main/java/com/example/androidiacar/MainCarSession.kt:289-295 | MESSAGE listing the rejected permissions joined with ", "; spoken text cleared; not busy |
| CarScreen.MainCarScreen.ShowInitializationError | app/src/main/java/com/example/androidiacar/MainCarSession.kt:297-302 | MESSAGE "Erro na inicialização: " + message; spoken text cleared; not busy |
| CarScreen.MainCarScreen.ShowTemporaryError | app/src/main/java/com/example/androidiacar/MainCarSession.kt:304-308 | not busy, one toast; the descriptor is kept |
| CarScreen.MainCarScreen.Speak | app/src/main/java/com/example/androidiacar/MainCarSession.kt:208-217 | speaks the text; without text-to-speech, shows the toast "Erro no sistema de voz." and clears busy |
| CarScreen.MainCarScreen.OnResponse | app/src/main/java/com/example/androidiacar/MainCarSession.kt:197-204 | records and speaks the spoken text; the descriptor becomes `DescriptorFor` the response |
| CarScreen.MainCarScreen.ProcessVoiceCommand | app/src/main/java/com/example/androidiacar/MainCarSession.kt:189-206 | no manager: toast "Assistente não está pronto." and nothing submitted; otherwise marks busy, submits the command, and the screen and manager follow the response |
| CarScreen.MainCarScreen.StartVoiceRecognition | app/src/main/java/com/example/androidiacar/MainCarSession.kt:240-270 | listening starts iff permission granted, recogniser present, not busy, and `startListening` succeeds; each failure gives its own toast and a redraw only if busy was set; once permission is granted and a recogniser exists, nothing changes while busy |
| CarScreen.MainCarScreen.OnRecognitionResults | app/src/main/java/com/example/androidiacar/MainCarSession.kt:112-121 | the first match is submitted exactly as `ProcessVoiceCommand` does: with no manager only the "not ready" toast and busy cleared; with a manager the command, spoken text, descriptor, busy flag, toasts, redraws and the manager's history, state and events follow `InputResponse`, `DescriptorFor`, `HistoryAfter` and `InputStep`; with no match, busy is cleared and the descriptor, spoken text, toasts, submitted commands, spoken log and manager stay as they were |
| CarScreen.MainCarScreen.HandleListItemClick | app/src/main/java/com/example/androidiacar/MainCarSession.kt:384-411 | a titled item shows "Processando: title" and is then submitted as `ProcessVoiceCommand` does: with no manager, the "not ready" toast follows and no command is recorded; with a manager, spoken text, descriptor, busy flag, toasts, redraws and the manager's history, state and events follow `InputResponse`, `DescriptorFor`, `HistoryAfter` and `InputStep`; an untitled one shows "Ação inválida para este item" and changes nothing else |
| CarScreen.MainCarScreen.OnDestroy | app/src/main/java/com/example/androidiacar/MainCarSession.kt:415-424 | text-to-speech is gone |
| CarScreen.MainCarScreen.BuildMessageTemplate | app/src/main/java/com/example/androidiacar/MainCarSession.kt:328-334 | the MESSAGE template `TemplateFor` describes |
| CarScreen.MainCarScreen.BuildPaneTemplate | app/src/main/java/com/example/androidiacar/MainCarSession.kt:336-347 | the PANE template `TemplateFor` describes |
| CarScreen.MainCarScreen.BuildListTemplate | app/src/main/java/com/example/androidiacar/MainCarSession.kt:349-367 | the row loop builds the LIST template `TemplateFor` describes |
| CarScreen.MainCarScreen.OnGetTemplate | app/src/main/java/com/example/androidiacar/MainCarSession.kt:312-326 | renders `TemplateFor` of the current descriptor, the last spoken text and the busy flag; the template kind is the descriptor's type and talk is enabled iff not busy; since every write to `currentUiUpdate` stores a descriptor (`Valid`), the fallback for a null descriptor (lines 321-324) is dead code |

## Left out

- org.json coercions: a value of the wrong type under a key is treated as absent, while org.json converts it to a string or number; an explicit JSON `null` under a string key, which Android's org.json reads as the text "null", is also treated as absent.
- JSON numbers are integers only (`JNumber(n: int)`): a fractional number cannot be written, so `optInt`'s truncation toward zero is lost. A `level` of 7.9 would be taken as 7, and -0.5 as 0, which sets the volume to 0 (ConversationManager.kt:333).
- Parsing the reply text: the JSON text is given already parsed (`Reply(raw, parsed)`), and a parse failure is `parsed == None`.
- Conversation.ConversationManager.ProcessGeminiResponse: the catch-all for non-JSON exceptions ("Ocorreu um erro inesperado…", ConversationManager.kt:364-368) is not modelled, since no modelled step throws one.
- Conversation.NavigationStarted: the `ActivityNotFoundException` retry without the Maps package is folded into one `navigationWorks` flag, and the two failure messages into one.
- Conversation.ConversationManager.ProcessInput: the prompt's system-state block, the clock time and the fixed instructions are not modelled; only the history section is.
- The Gemini SDK's own chat history, and caller-visible `StateFlow` notifications.
- Common.Upper and Common.Lower: they map only ASCII letters; Kotlin's `uppercase()` and `lowercase()` are Unicode-aware.
- Conversation.VolumeAdjusted: `level` and `volume` are unbounded integers. A `level` outside the 32-bit range, which org.json would truncate to an `Int`, is used as given.
- Concurrency: the IO coroutine of `processInput` and the main-thread callback are run in sequence within one call. The text-to-speech progress callbacks (`onStart`/`onDone`/`onError`) and the recogniser's other callbacks set the busy flag through `SetBusyState`; they are not separate members.
- CarScreen.MainCarScreen.StartVoiceRecognition: the permission dialog and the recogniser's re-creation are given as results (`permissionGranted`, `recognizerReady`, `listenWorks`), not performed.
- The location-permission request of `onCreate`: only its failure display (`ShowPermissionError`) is modelled.
- The car-app library's builders are plain datatypes here (`Template`, `Row`); their own validation is not modelled. A builder that refuses an empty row title or a pane without rows would throw instead of rendering, so the untitled LIST item of `CarScreen.UntitledItemRowAsWritten` and a PANE reply with neither text may fail at build time on a device.
- Logging. CarToast and `invalidate()` are recorded, not displayed.
- `MainCarSession.onCreateScreen` and the dependency injection that supplies the model and the scope.

## Findings

Both rows concern a Kotlin elvis fallback after `optString(key)`, which returns "" and never null for a missing key. The model's operations (`ItemOf`, `Dispatch`, `ConversationManager.ExecuteAction`) follow the code as written, so the model shows what the app does. The corrected definitions stand beside them with the intended behaviour proved about them.

| source | as written | input that shows it | evidently intended | confidence | as-written member | corrected member |
|---|---|---|---|---|---|---|
| app/src/main/java/com/example/androidiacar/ai/ConversationManager.kt:285 | the fallback title "Item sem título" applies only when `optString` returns null, which it never does; a missing title gives "" | `{"template_type":"LIST","items":[{}]}` gives one item titled "" | an item without a title is shown as "Item sem título" | not executed | Conversation.ItemTitleAsWritten, Conversation.UntitledItemAsWritten, Conversation.UntitledListItemAsWritten, CarScreen.UntitledItemRowAsWritten | Conversation.ItemTitle |
| app/src/main/java/com/example/androidiacar/ai/ConversationManager.kt:327 | the fallback command "play" applies only when `optString` returns null, which it never does; a missing command gives "", which matches no command | the action `{"type":"PLAY_MUSIC"}` sends no broadcast and changes nothing | a PLAY_MUSIC action without a command plays (togglepause broadcast, playing set) | not executed | Conversation.MusicCommandAsWritten, Conversation.MissingMusicCommandAsWritten, Conversation.PlayMusicWithoutCommandAsWritten | Conversation.MusicCommand, Conversation.MissingMusicCommandPlays |
