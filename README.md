# Desktop Helper LLM — a Dafny model of its character and chat core

Desktop Helper shows a Live2D character in a frameless, always-on-top
window. The user can click the character or type a message to an LLM. The
replies appear in a chat bubble above the window. This project models the
logic behind that in Dafny and proves properties of the model:

- **Interaction** (`interaction.dfy`): clicks on the character.
  - A clicked part id is classified into one of six hit areas. Six
    case-insensitive patterns are tried in order, and the first match wins.
  - A hit area is mapped to a motion and one of its replies.
  - A table of hit areas is read from the model's configuration.
  - The patterns are data: each one is a list of literal tokens that must
    match the whole id, a prefix of it, or anywhere in it. The id is trimmed
    as Python's `str.strip()` does (`text.dfy`).
- **Library** (`library.dfy`): the built-in character list (Mao, Hiyori,
  Miku) and the default-character rule.
- **Loader** (`loader.dfy`): the `CharacterLoader` object.
  - It derives its runtime directory and caches the parsed model
    configuration.
  - It computes the moc, texture, motion and expression paths from the
    configuration.
  - A parsed JSON document is a `Json` value (`json.dfy`). The Python
    operations on it (`get`, subscripting, iteration, `items`, joining a
    path) carry the exceptions Python raises on values of the wrong shape.
- **Bubble** (`bubble.dfy`): the `ChatBubble` widget's state.
  - It holds the text and size, and whether it is visible.
  - It has a single-shot auto-hide timer and a fade-out that ends in a hide.
- **Llm** (`llm.dfy`): the `LLMClient` object.
  - The constructor's checks choose the API key.
  - It keeps a chat history of user/assistant exchanges.
  - `send_message` turns every failure into a reply string.
- **Window** (`window.dfy`): the `DesktopCharacterWindow` object.
  - It dispatches a typed message to the client and the bubble.
  - It places the window on the screen and the bubble next to the window.
  - It handles dragging.

Things outside the program become parameters, so every operation is a
function of its inputs:

- **File existence** is a predicate `present`.
- **A configuration file** is a `ConfigFile`: missing, text that does not
  parse as JSON, or a parsed document.
- **`random.choice`** is an index `pick`.
- **Font metrics** are a function `measure` from text to the size of its
  wrapped bounding rectangle.
- **The environment variable** is an optional string.
- **The Gemini request** is an `Outcome`: a response text (possibly empty or
  missing) or an exception message.
- **An exception escaping the client inside the window's `try`** is an
  optional message `escaped`.

Objects whose fields the source updates are classes: `CharacterInteraction`,
`CharacterLoader`, `ChatBubble`, `LlmClient` and `DesktopCharacterWindow`.
Their methods are stated against pure functions, and the lemmas are proved
about those functions. The two dict-building loops of the loader and the
hit-area loop are `while` loops. Their invariant says that what is left of
the loop, run from the current dict, yields the final result.

## Model

| member | source | states |
|---|---|---|
| Interaction.FirstMatch | src/character_interaction.py:167-169 | The index returned is a rule that matches, and every earlier rule fails. None means that no rule matches. |
| Interaction.FirstMatchAt | src/character_interaction.py:167-169 | The search returns rule i once rule i matches and no earlier rule does. |
| Interaction.InferNoRule | src/character_interaction.py:165-170 | A trimmed id that no pattern matches is Body. |
| Interaction.InferHitAreaIgnoresCase | src/character_interaction.py:54-64 | Two part ids whose trimmed forms agree up to case get the same area (the patterns use IGNORECASE). |
| Interaction.FirstMatchIgnoresCase | src/character_interaction.py:166-169 | The first-match search gives the same answer for any two texts equal up to case. |
| Interaction.TorsoTokenWins | src/character_interaction.py:165-170 | An id containing "robe" or "body" in any case is Body, whatever later rule it also matches. |
| Interaction.PartCoreIsBody | src/character_interaction.py:54 | An id equal to "PartCore" in any case, after trimming, is Body. |
| Interaction.WholeIsExactAfterStrip | src/character_interaction.py:54 | After trimming, the `^PartCore$` alternative is exact equality up to case, because a trimmed id cannot end in the newline `$` also accepts. |
| Interaction.TorsoRuleSpelledOut | src/character_interaction.py:54 | The first rule matches iff the lower-cased id is "partcore" (optionally with a final newline) or contains "robe" or "body". |
| Interaction.LegRuleSpelledOut | src/character_interaction.py:56 | The leg rule matches iff the lower-cased id starts with "partleg". |
| Interaction.ArmRuleSpelledOut | src/character_interaction.py:58 | The arm rule matches iff the lower-cased id starts with "partarm" or contains "hand" or "wand". |
| Interaction.HeadRuleSpelledOut | src/character_interaction.py:60 | The head rule matches iff the lower-cased id contains one of head, face, hair, eye, brow, hat, mouth. |
| Interaction.ChestRuleSpelledOut | src/character_interaction.py:62 | The chest rule matches iff the lower-cased id contains "chest" or "bust". |
| Interaction.BellyRuleSpelledOut | src/character_interaction.py:64 | The belly rule matches iff the lower-cased id contains "belly" or "stomach". |
| Interaction.RuleMatchesSome | src/character_interaction.py:168 | A pattern with alternatives matches iff one of its alternatives, tried left to right, matches. |
| Interaction.NoRuleMatchesEmpty | src/character_interaction.py:54-64 | No pattern matches the empty text. |
| Interaction.NoIdIsBody | src/character_interaction.py:166-170 | A missing id (None), and any id that is empty after trimming, is Body. |
| Interaction.HeadRobeIsBody | src/character_interaction.py:165-170 | Any id reading "HeadRobe" in any case after trimming is Body: the torso rule comes before the head rule. |
| Interaction.PartLegHandIsFoot | src/character_interaction.py:165-170 | Any id reading "PartLegHand" in any case after trimming is Foot: the leg rule comes before the hand rule. |
| Interaction.PartCoreHeadIsHead | src/character_interaction.py:54 | Any id reading "PartCoreHead" in any case after trimming is Head, because `^PartCore$` requires the whole id. |
| Interaction.LowerArmIsHand | src/character_interaction.py:58 | Any id reading "PartArmL" in any case after trimming is Hand, through the `^PartArm` prefix. |
| Interaction.PaddedArmStrip | src/character_interaction.py:166 | " partarml " trims to "partarml", so LowerArmIsHand classifies it as Hand. |
| Interaction.InferHitArea | src/character_interaction.py:165-170 | The area is Body or the area of a rule that matches the trimmed id. In full, stated by InferByFirstRule and InferNoRule: the area of the first rule that matches the trimmed id, and Body when none does. |
| Interaction.InferByFirstRule | src/character_interaction.py:165-170 | Once rule i matches the trimmed id and no earlier rule does, the area is rule i's area. |
| Interaction.GetInteraction | src/character_interaction.py:145-155 | An unknown area gives ("mtn_02", "嗯？怎麼了？"). A known area gives its motion with a reply from its list: the reply is a member of the list, and entry `pick` when `pick` is in range. With no reply list, or an empty one, the reply is the area's fixed response. |
| Interaction.CatalogCoversAreas | src/character_interaction.py:18-99 | Every hit area the classifier can produce has an INTERACTION_MAP entry and three replies, none of which is the default reply. |
| Interaction.GetInteractionForPart | src/character_interaction.py:157-163 | The first component is the inferred area's id. The motion is that area's motion and the reply is one of its replies. The result is never the default pair. |
| Interaction.AddHitArea | src/character_interaction.py:126-130 | One loop pass fails exactly when the entry is not a dict, or its id is truthy and cannot be a dict key. |
| Interaction.StoredIds | src/character_interaction.py:127-130 | A key is stored iff some entry carries it as a truthy `Id`. |
| Interaction.FillKeys | src/character_interaction.py:124-130 | When no entry raises, the table's keys are its earlier keys plus the truthy ids of the entries. |
| Interaction.FillKeepsOthers | src/character_interaction.py:124-130 | A key that no entry names keeps its earlier value. |
| Interaction.FillLastWins | src/character_interaction.py:126-130 | The value stored under an id is the `Name` of the last entry carrying that id: later duplicates overwrite earlier ones. |
| Interaction.FillStopsAtRaise | src/character_interaction.py:126-132 | An entry that raises ends the loop: one that is not a dict (AttributeError on `.get`), or one whose truthy id cannot be a dict key (TypeError). The table keeps what was stored before it, and nothing after it is read. |
| Interaction.CharacterInteraction.constructor | src/character_interaction.py:101-112 | The table starts empty. It is filled from the configuration only when a configuration path is given. |
| Interaction.CharacterInteraction.LoadHitAreas | src/character_interaction.py:114-132 | The new table is the loop's result over the `HitAreas` entries. A missing file, undecodable text, a document that is not a dict and an entry list that cannot be iterated all leave the table unchanged (the exception is caught). |
| Interaction.CharacterInteraction.GetAllHitAreas | src/character_interaction.py:172-174 | Returns the table as a value, so the caller and the object cannot affect each other. |
| Library.BuildCharacters | src/character_library.py:24-64 | The list has at most three entries. It holds Mao, Hiyori and Miku exactly when each one's model file exists, in that order. |
| Library.BuiltIdsDistinct | src/character_library.py:31-62 | The ids in the built list are pairwise distinct. |
| Library.FindById | src/character_library.py:86-88 | The index returned is the first entry with the id. None means that no entry has it. |
| Library.GetDefaultCharacter | src/character_library.py:75-90 | An empty list raises RuntimeError. Otherwise the result is a member of the list: the first entry with id "mao_pro_en" when one exists, else the first entry. |
| Library.DefaultOfBuiltList | src/character_library.py:24-90 | The default of the built list is Mao if its file exists, else Hiyori if its file exists, else Miku if its file exists. With none of the three files present, it is an error. |
| Library.ModelFile | src/character_library.py:32 | A character's model file is root/folder/folder/runtime/file. |
| Loader.LoadError | src/character_loader.py:32-36 | The error is FileNotFoundError exactly when the file is missing, and text that does not parse as JSON raises JSONDecodeError. |
| Loader.Cached | src/character_loader.py:42-43 | The getters use the cached configuration while it is truthy. Otherwise they use a fresh load, which may fail. |
| Loader.Reloaded | src/character_loader.py:36-43 | The cache changes only when it was falsy and the file parsed. |
| Loader.MocPath | src/character_loader.py:45-49 | The moc path is runtime/`Moc`. It succeeds exactly when `Moc` is a non-empty string. A missing or empty `Moc` raises ValueError, and a configuration or `FileReferences` that is not a dict raises AttributeError. |
| Loader.JoinEach | src/character_loader.py:57 | Joining keeps count and order: entry i becomes runtime/entry i. The first entry that is not a string raises TypeError. |
| Loader.TexturePaths | src/character_loader.py:56-57 | A missing `Textures` gives the empty list. A list of strings gives one runtime-prefixed path per entry, in order. |
| Loader.FillMap | src/character_loader.py:67-71 | A dict-filling loop succeeds iff no entry raises. Otherwise it fails with the error of the first entry that raises. |
| Loader.PutKeys | src/character_loader.py:68 | A key is stored iff some pass stores it. |
| Loader.FillMapKeys | src/character_loader.py:67-71 | A loop that does not raise ends with its initial keys plus the stored keys. |
| Loader.FillMapKeepsOthers | src/character_loader.py:67-71 | A key no pass stores keeps its value. |
| Loader.FillMapLastWins | src/character_loader.py:68 | The last pass storing a key decides its value. |
| Loader.MotionPath | src/character_loader.py:69 | One motion entry's path: runtime/`File` iff the entry is a dict whose `File` is a string. A dict without `File` raises KeyError; any other shape raises TypeError. |
| Loader.MotionEntries | src/character_loader.py:68-71 | A group's list has one path per motion entry, in order: runtime/`File`. It succeeds iff every entry has a string `File`; otherwise it raises KeyError or TypeError. |
| Loader.MotionsPath | src/character_loader.py:64-73 | A missing `Motions` gives the empty dict. A `Motions` that is not a dict, or a configuration without dict `FileReferences`, raises AttributeError. |
| Loader.MotionsPathGroups | src/character_loader.py:64-73 | A successful result has exactly the configuration's group names as keys. Each group's list is the one built from that group's entries. |
| Loader.FillGroupNames | src/character_loader.py:67-71 | A loop over the groups that does not raise stores exactly the group names. |
| Loader.FillGroups | src/character_loader.py:67-71 | The loop over the groups stores every group name, each with its own list (the last occurrence for a repeated name). |
| Loader.ExpressionPass | src/character_loader.py:84-87 | An entry is stored iff it is a dict whose `Name` is truthy and hashable and whose `File` is a non-empty string. It is stored under `Name` with path runtime/`File`. It is skipped iff one of the two is falsy. |
| Loader.ExpressionsPath | src/character_loader.py:80-89 | A missing `Expressions` gives the empty dict, and a configuration without dict `FileReferences` raises AttributeError. |
| Loader.ExpressionsPathIsFill | src/character_loader.py:75-89 | With a list under `Expressions`, the result is the loop over that list. |
| Loader.ExpressionsKeepNamed | src/character_loader.py:80-89 | The keys are exactly the names of entries whose `Name` and `File` are both truthy. |
| Loader.ExpressionsLastWins | src/character_loader.py:83-87 | The last entry with a given stored name decides its path: runtime/`File`. |
| Loader.CharacterLoader.constructor | src/character_loader.py:14-23 | The runtime directory is the model file's parent joined with "runtime". Nothing is cached yet. |
| Loader.CharacterLoader.LoadModelConfig | src/character_loader.py:25-38 | A parsed file becomes the cache and the result. A missing or undecodable file raises and leaves the cache unchanged. |
| Loader.CharacterLoader.EnsureLoaded | src/character_loader.py:42-43 | The lazy-load step of every getter, stated by Cached and Reloaded. |
| Loader.CharacterLoader.GetMocPath | src/character_loader.py:40-49 | The result is MocPath of the cached or freshly loaded configuration, or the load error. |
| Loader.CharacterLoader.GetTexturePaths | src/character_loader.py:51-57 | The result is TexturePaths of the cached or freshly loaded configuration, or the load error. |
| Loader.CharacterLoader.GetMotionsPath | src/character_loader.py:59-73 | The loop returns MotionsPath of the configuration, or the load error. |
| Loader.CharacterLoader.GetExpressionsPath | src/character_loader.py:75-89 | The loop returns ExpressionsPath of the configuration, or the load error. |
| Loader.MocNotBesideModel | src/character_loader.py:22 | As written, a resolved `Moc` file lies in the model file's directory with `runtime` appended, never in the model file's own directory. |
| Loader.IntendedMocBesideModel | src/character_loader.py:22 | With the runtime directory taken as the model file's parent, the resolved `Moc` file sits beside the model file under the configured name. |
| Loader.BuiltInRuntimeIsNested | src/character_loader.py:22 | For a built-in model file, which already sits in a `runtime` directory, the derived runtime directory is `…/runtime/runtime`. |
| Bubble.BubbleWidth | src/chat_bubble.py:81 | The width is the text width plus 40, capped at 400, so it never exceeds 400. |
| Bubble.BubbleHeight | src/chat_bubble.py:82 | The height is the text height plus 30, at least 60, so it is never below 60. |
| Bubble.ChatBubble.constructor | src/chat_bubble.py:14-34 | A new bubble has empty text, is 300 by 100 and is hidden, with no timer and no fade-out running. |
| Bubble.ChatBubble.ShowMessage | src/chat_bubble.py:62-91 | The text is exactly `t`, the size follows the two rules and the bubble is shown. A positive duration (re)starts the single-shot timer with that interval. A duration of 0 or less leaves the timer, and a pending hide, as they were. A running fade-out keeps running. |
| Bubble.ChatBubble.TimerFires | src/chat_bubble.py:18-20 | Timer expiry stops the single-shot timer and starts the fade-out. |
| Bubble.ChatBubble.FadeOut | src/chat_bubble.py:93-95 | The fade-out animation is running afterwards. |
| Bubble.ChatBubble.Close | src/desktop_window.py:158-159 | `close()` hides the bubble; a pending timer and a running fade-out stay as they were. |
| Bubble.ChatBubble.FadeOutFinished | src/chat_bubble.py:49 | The end of the fade-out hides the bubble, whatever it shows at that moment. |
| Bubble.ChatBubble.Move | src/desktop_window.py:240 | The bubble's top-left corner is the given point. |
| Llm.ResolveApiKey | src/llm_client.py:29-40 | A missing library raises ImportError. A non-empty argument wins over the environment. With neither giving a non-empty key, ValueError is raised. A resolved key is never empty. |
| Llm.ReplyText | src/llm_client.py:69 | The reply is the response text, or "未收到有效回應" when the text is empty or missing. It is never empty. |
| Llm.FailureText | src/llm_client.py:78 | A failure's reply is "API 請求失敗: " followed by the exception's message. |
| Llm.ExchangeAppended | src/llm_client.py:72-73 | Appending a user entry and then an assistant entry keeps the history a sequence of user/assistant exchanges. |
| Llm.LlmClient.constructor | src/llm_client.py:36-49 | A client starts with its key and an empty history. |
| Llm.LlmClient.SendMessage | src/llm_client.py:51-80 | It never raises. A response appends exactly the user message and the reply, in that order, and returns the reply. An exception returns its message behind the fixed prefix and leaves the history unchanged. The reply is never empty. |
| Llm.LlmClient.ClearHistory | src/llm_client.py:82-84 | The history is empty afterwards. |
| Window.BubblePosition | src/desktop_window.py:229-240 | x is window x + (window width − bubble width) // 2, with floor division. y is 20 pixels above the window, or 20 pixels below it when above would start higher than the screen's top. |
| Window.BubbleBesideWindow | src/desktop_window.py:232-238 | The bubble's centre is the window's, at most half a pixel to the left. The bubble never overlaps the window vertically, and it starts at or below the screen's top edge unless it was moved below the window. |
| Window.InitialPosition | src/desktop_window.py:127-132 | x is the screen's width minus the window's width minus 50, and y is the screen's height minus the window's height minus 100. |
| Window.DragFollowsPointer | src/desktop_window.py:163-173 | A drag moves the window by exactly the pointer's displacement. Returning to the press point restores the original top-left. |
| Window.DesktopCharacterWindow.constructor | src/desktop_window.py:23-125 | There is a hidden bubble and an empty input. A client exists iff `LLMClient()` with no key argument succeeds. The window starts at the initial position. |
| Window.DesktopCharacterWindow.UpdateBubblePosition | src/desktop_window.py:223-240 | The bubble is moved to BubblePosition of the window's geometry and the bubble's size. |
| Window.DesktopCharacterWindow.CloseEvent | src/desktop_window.py:155-160 | Closing the window hides the bubble; nothing else of the window or bubble state changes. |
| Window.DesktopCharacterWindow.MoveEvent | src/desktop_window.py:242-246 | The bubble follows the window only while it is visible. |
| Window.DesktopCharacterWindow.Move | src/desktop_window.py:242-246 | The window moves to the point, and a visible bubble follows it. |
| Window.DesktopCharacterWindow.MousePress | src/desktop_window.py:163-167 | A left press stores the press point minus the window's top-left. Other buttons leave the offset unchanged. |
| Window.DesktopCharacterWindow.MouseMove | src/desktop_window.py:169-173 | While exactly the left button is held, the window moves to the pointer minus the offset. Otherwise nothing moves. |
| Window.Answer | src/desktop_window.py:197-214 | The final message: the client's reply for 15000 ms (an API failure's text included), "錯誤: " + message for 5000 ms when an exception escapes the client, or "LLM 客戶端未初始化" for 3000 ms without a client. It is never empty and always auto-hides. |
| Window.DesktopCharacterWindow.Show | src/desktop_window.py:194-195 | The bubble shows the text, is sized to it and placed at BubblePosition. A positive duration (re)starts the timer; otherwise the timer is left as it was. A running fade-out keeps running. |
| Window.DesktopCharacterWindow.Respond | src/desktop_window.py:196-214 | The bubble shows exactly Answer, is sized to it, auto-hides and sits at BubblePosition; a running fade-out keeps running. Only a response from the model adds the user message and reply to the history. |
| Window.DesktopCharacterWindow.Send | src/desktop_window.py:189-214 | The input is cleared, and the bubble shows exactly "思考中..." with duration 0 and then Answer, sized to Answer's text; a running fade-out keeps running. |
| Window.DesktopCharacterWindow.OnSendMessage | src/desktop_window.py:180-214 | Whitespace-only input changes nothing. Otherwise the input is cleared, and the bubble shows exactly "思考中..." with duration 0 and then Answer. The user message and reply are recorded only when a response came back. The auto-hide timer runs afterwards, the bubble is sized to Answer's text and sits at BubblePosition, and a running fade-out keeps running. |
| Text.Strip | src/character_interaction.py:166 | `str.strip()`: the result is no longer than the input and neither starts nor ends with whitespace. |
| Text.StripIsInfix | src/character_interaction.py:166 | `str.strip()` is an infix of the input, and everything cut before and after it is whitespace. |
| Text.StripEmptyIffAllSpace | src/desktop_window.py:185-186 | A stripped text is empty iff every character is whitespace. |
| Text.TrimStart | src/character_interaction.py:166 | The result is a suffix of the input, and only whitespace was removed. |
| Text.TrimEnd | src/character_interaction.py:166 | The result is a prefix of the input, and only whitespace was removed. |
| Text.LowerStr | src/character_interaction.py:54-64 | The IGNORECASE fold: the length is kept, no upper-case ASCII letter is left, each one becomes its lower-case partner, and every other character stays where it was. |
| Text.LowerIdempotent | src/character_interaction.py:54-64 | Folding twice is folding once. |
| Json.Lookup | src/character_loader.py:45 | A dict lookup finds a key iff some member has it, and the last member with the key wins (as `json.load` does with duplicates). |
| Json.Get | src/character_interaction.py:125 | `.get` works only on a dict: the value of the last member with the key, or the default when no member has it. Anything else raises AttributeError. |
| Json.Subscript | src/character_loader.py:69 | `d["File"]` succeeds iff the value is a dict with some member holding the key, and gives the last such member's value. A dict without the key raises KeyError; a value that is not a dict raises TypeError. |

## Left out

- Rendering is not modelled: the Live2D widget (src/live2d_widget.py), OpenGL, painting, opacity and the easing of the fade animations. Only the fade-out's start and its `finished` signal are kept, as a flag.
- The process entry point main.py and the Qt application wiring are not modelled.
- The voice-input stub, window flags, style sheets and layout are not modelled. Neither are the double-click handler (it does nothing), `load_character` and `_on_model_loaded`: they only forward to the Live2D widget or print. Of `closeEvent` only the closing of the bubble is modelled (`CloseEvent`); the Live2D widget's `cleanup` and the event's acceptance are not.
- The window's `if not self.text_input` and `if self.chat_bubble` guards are not modelled. Both widgets are always created in `_init_ui` (src/desktop_window.py:62, 72), so the model treats them as always present.
- File reads, `json.load`, `exists()`, `load_dotenv`, `os.getenv`, `random.choice`, font metrics and the Gemini request become parameters, as listed at the top.
- Messages printed to the console are not modelled.
- Python's `re.IGNORECASE` folds Unicode case, for example "ſ" matches "s" and "K" (the Kelvin sign) matches "k". The model folds ASCII letters only. Part ids are ASCII identifiers in practice.
- JSON numbers are integers. Floats are not modelled, and neither is Python's rule that `True`, `1` and `1.0` are the same dict key.
- A JSON object is kept as its member list. A lookup takes the last duplicate, as `json.load` does. The loops over `HitAreas`, `Motions` and `Expressions` visit every member of a written object. For an object with a duplicated key, Python's dict would visit each key once, holding the last value.
- Loader.LoadError: read errors other than a missing file and a JSON syntax error are outside `ConfigFile`. They include UnicodeDecodeError for bytes that are not UTF-8 (the file is opened with `encoding='utf-8'`), IsADirectoryError and PermissionError.
- Base.Join: pathlib's normalisation is not modelled. pathlib drops empty and `.` components, so a texture or motion entry `""` names the runtime directory itself, while `Join` appends an empty component; absolute components, separators inside a component and the parent of a root path are not interpreted either. A path is its list of components.
- Interaction.GetInteraction: `random.choice` is modelled as a chosen index `pick`, taken modulo the list's length. The contract promises membership, not a distribution.
- `send_message`'s `if not GEMINI_AVAILABLE` branch (src/llm_client.py:61-62) is not modelled. The constructor already raises ImportError when the library is missing, so no client object can reach that branch.
- The Gemini model object (`genai.configure`, `GenerativeModel`, src/llm_client.py:43-46) is not modelled. A client keeps only its key and its history.
- `get_available_characters` (src/character_library.py:70-72) has no member of its own. It returns a copy of the built list. Sequences are values in the model, so the copy is the list returned by BuildCharacters, and no caller can change it.
- The module-level `_CHARACTERS` is the value of BuildCharacters for the project root and the file system at import time.
- Window.DesktopCharacterWindow.OnSendMessage: the window's `except` branch catches exceptions that escape the client call. `send_message` catches `Exception` itself, so what escapes is outside the model of the client. That case is the `escaped` parameter.
- Window.DesktopCharacterWindow.Move: Qt sends a move event for every `move`. The model repositions a visible bubble after every move. Qt skips the event when the position is unchanged, but the bubble's place is then the same either way.
- The screen's own offset is used only where the source uses it: its `y` for the bubble, and its width and height for the initial position.

## Findings

| source | as written | input that shows it | evidently intended | confidence | as-written member | corrected member |
|---|---|---|---|---|---|---|
| src/character_loader.py:22 | `runtime_path = model_path.parent / "runtime"`, and every getter joins the configuration's relative paths onto it | the built-in Mao model `<root>/mao_pro_en/mao_pro_en/runtime/mao_pro.model3.json` with `"Moc": "mao_pro.moc3"` resolves to `<root>/mao_pro_en/mao_pro_en/runtime/runtime/mao_pro.moc3` | the paths in a `.model3.json` are relative to the model file's own directory, so `runtime_path = model_path.parent` | medium, not executed | Loader.MocNotBesideModel | Loader.IntendedMocBesideModel |

The getters' specification functions (`MocPath`, `TexturePaths`, `MotionsPath` and `ExpressionsPath`) take the runtime directory as a parameter. Everything proved about them therefore holds for the corrected directory as well as for the as-written one. `CharacterLoader` keeps the directory the source computes, and `BuiltInRuntimeIsNested` shows where that directory lands for every built-in model.
