/** The desktop window: the text field, the dispatch of a typed message to
    the LLM client and the chat bubble, and the integer geometry that places
    the window on the screen and the bubble next to the window. */
module Window {
  import opened Base
  import opened Text
  import opened Bubble
  import opened Llm

  const WINDOW_WIDTH: int := 400
  const WINDOW_HEIGHT: int := 700
  const THINKING: string := "思考中..."
  const NO_CLIENT: string := "LLM 客戶端未初始化"
  const ERROR_PREFIX: string := "錯誤: "
  const REPLY_DURATION: int := 15000
  const ERROR_DURATION: int := 5000
  const NO_CLIENT_DURATION: int := 3000

  /** A rectangle in screen coordinates: top-left corner and size. */
  datatype Rect = Rect(x: int, y: int, width: int, height: int)

  datatype MouseButton = Left | Right | Middle

  // ---------------------------------------------------------------------
  // Placement arithmetic
  // ---------------------------------------------------------------------

  /** `_update_bubble_position`: the bubble is centred horizontally on the
      window (floor division of the spare width), 20 pixels above it, or 20
      pixels below it when above would start higher than the screen's top. */
  function BubblePosition(window: Rect, bubbleWidth: int, bubbleHeight: int, screen: Rect): (r: (int, int))
    ensures 2 * (r.0 - window.x) <= window.width - bubbleWidth < 2 * (r.0 - window.x) + 2
    ensures window.y - bubbleHeight - 20 >= screen.y ==> r.1 == window.y - bubbleHeight - 20
    ensures window.y - bubbleHeight - 20 < screen.y ==> r.1 == window.y + window.height + 20
  {
    var x := window.x + (window.width - bubbleWidth) / 2;
    var above := window.y - bubbleHeight - 20;
    (x, if above < screen.y then window.y + window.height + 20 else above)
  }

  /** The bubble's centre is the window's centre, half a pixel to the left
      when the spare width is odd. The bubble never overlaps the window
      vertically, and it starts on or below the screen's top unless it had
      to go below the window. */
  lemma {:induction false} BubbleBesideWindow(window: Rect, bubbleWidth: int, bubbleHeight: int, screen: Rect)
    ensures var r := BubblePosition(window, bubbleWidth, bubbleHeight, screen);
            && 0 <= (2 * window.x + window.width) - (2 * r.0 + bubbleWidth) <= 1
            && (r.1 + bubbleHeight + 20 <= window.y || r.1 >= window.y + window.height + 20)
            && (r.1 >= screen.y || r.1 == window.y + window.height + 20)
  {
  }

  /** `_set_initial_position`: 50 pixels from the screen's right edge and 100
      pixels from its bottom edge. */
  function InitialPosition(screen: Rect, width: int, height: int): (r: (int, int))
    ensures r.0 + width + 50 == screen.width
    ensures r.1 + height + 100 == screen.height
  {
    (screen.width - width - 50, screen.height - height - 100)
  }

  /** The drag offset `mousePressEvent` stores: the press point relative to
      the window's top-left corner. */
  function DragOffset(press: (int, int), topLeft: (int, int)): (int, int) {
    (press.0 - topLeft.0, press.1 - topLeft.1)
  }

  /** The top-left corner `mouseMoveEvent` moves the window to. */
  function DragTarget(point: (int, int), offset: (int, int)): (int, int) {
    (point.0 - offset.0, point.1 - offset.1)
  }

  /** Dragging moves the window by exactly the distance the pointer moved;
      in particular a pointer back at the press point puts the window back
      where it was. */
  lemma {:induction false} DragFollowsPointer(press: (int, int), topLeft: (int, int), dx: int, dy: int)
    ensures DragTarget((press.0 + dx, press.1 + dy), DragOffset(press, topLeft)) == (topLeft.0 + dx, topLeft.1 + dy)
    ensures DragTarget(press, DragOffset(press, topLeft)) == topLeft
  {
  }

  /** The last thing `_on_send_message` shows for a non-empty message: the
      client's reply for 15 seconds (an API failure included, since
      `send_message` turns it into a reply), the message of an exception
      escaping the client for 5 seconds, or a notice for 3 seconds when there
      is no client. Whatever happens, the text is not empty and the bubble
      hides itself afterwards. */
  function Answer(hasClient: bool, outcome: Outcome, escaped: Option<string>): (r: (string, int))
    ensures r.0 != [] && r.1 > 0
    ensures !hasClient ==> r == (NO_CLIENT, NO_CLIENT_DURATION)
    ensures hasClient && escaped.Some? ==> r == (ERROR_PREFIX + escaped.value, ERROR_DURATION)
    ensures hasClient && escaped.None? && outcome.Generated? ==> r == (ReplyText(outcome.text), REPLY_DURATION)
    ensures hasClient && escaped.None? && outcome.Raised? ==> r == (FailureText(outcome.message), REPLY_DURATION)
  {
    if !hasClient then (NO_CLIENT, NO_CLIENT_DURATION)
    else if escaped.Some? then (ERROR_PREFIX + escaped.value, ERROR_DURATION)
    else match outcome
      case Generated(text) => (ReplyText(text), REPLY_DURATION)
      case Raised(message) => (FailureText(message), REPLY_DURATION)
  }

  // ---------------------------------------------------------------------
  // The window object
  // ---------------------------------------------------------------------

  /** The state of the DesktopCharacterWindow the dispatch and placement
      code reads and writes. The window is frameless, so its frame and its
      geometry share the top-left corner (`x`, `y`). */
  class DesktopCharacterWindow {
    var inputText: string
    var x: int
    var y: int
    var dragOffset: (int, int)
    const screen: Rect
    const bubble: ChatBubble
    const client: LlmClient?

    ghost predicate Valid()
      reads this, bubble, client
    {
      bubble.Valid() && (client != null ==> client.Valid())
    }

    function Geometry(): (r: Rect)
      reads this
      ensures r.x == x && r.y == y && r.width == WINDOW_WIDTH && r.height == WINDOW_HEIGHT
    {
      Rect(x, y, WINDOW_WIDTH, WINDOW_HEIGHT)
    }

    /** `__init__` and `_init_ui`: a hidden bubble, a client only when
        `LLMClient()` succeeds (no key argument, so the key comes from the
        environment), an empty text field and the initial position. */
    constructor (screen: Rect, measure: string -> (nat, nat), available: bool, environment: Option<string>)
      ensures this.screen == screen
      ensures fresh(bubble) && bubble.measure == measure && !bubble.visible && bubble.shown == []
      ensures (client != null) <==> ResolveApiKey(available, None, environment).Success?
      ensures client != null ==> fresh(client) && client.apiKey == ResolveApiKey(available, None, environment).value
                                 && client.chatHistory == []
      ensures inputText == "" && dragOffset == (0, 0)
      ensures (x, y) == InitialPosition(screen, WINDOW_WIDTH, WINDOW_HEIGHT)
      ensures Valid()
    {
      this.screen := screen;
      bubble := new ChatBubble(measure);
      var key := ResolveApiKey(available, None, environment);
      if key.Success? {
        client := new LlmClient(key.value);
      } else {
        client := null;
      }
      inputText := "";
      dragOffset := (0, 0);
      var (ix, iy) := InitialPosition(screen, WINDOW_WIDTH, WINDOW_HEIGHT);
      x, y := ix, iy;
    }

    /** `_update_bubble_position`. */
    method UpdateBubblePosition()
      modifies bubble`x, bubble`y
      ensures (bubble.x, bubble.y) == BubblePosition(Geometry(), bubble.width, bubble.height, screen)
    {
      var p := BubblePosition(Geometry(), bubble.width, bubble.height, screen);
      bubble.Move(p.0, p.1);
    }

    /** `closeEvent`: the bubble closes with the window. */
    method CloseEvent()
      modifies bubble`visible
      ensures !bubble.visible
    {
      bubble.Close();
    }

    /** `moveEvent`: the bubble follows the window only while it is
        visible. */
    method MoveEvent()
      modifies bubble`x, bubble`y
      ensures bubble.visible ==> (bubble.x, bubble.y) == BubblePosition(Geometry(), bubble.width, bubble.height, screen)
      ensures !bubble.visible ==> bubble.x == old(bubble.x) && bubble.y == old(bubble.y)
    {
      if bubble.visible {
        UpdateBubblePosition();
      }
    }

    /** `move`, followed by the move event it causes. */
    method Move(nx: int, ny: int)
      modifies this`x, this`y, bubble`x, bubble`y
      ensures x == nx && y == ny
      ensures bubble.visible ==> (bubble.x, bubble.y) == BubblePosition(Geometry(), bubble.width, bubble.height, screen)
      ensures !bubble.visible ==> bubble.x == old(bubble.x) && bubble.y == old(bubble.y)
    {
      x, y := nx, ny;
      MoveEvent();
    }

    /** `mousePressEvent`: a left press records the drag offset. */
    method MousePress(button: MouseButton, globalX: int, globalY: int)
      modifies this`dragOffset
      ensures button == Left ==> dragOffset == DragOffset((globalX, globalY), (x, y))
      ensures button != Left ==> dragOffset == old(dragOffset)
    {
      if button == Left {
        dragOffset := DragOffset((globalX, globalY), (x, y));
      }
    }

    /** `mouseMoveEvent`: while exactly the left button is held, the window
        follows the pointer. */
    method MouseMove(buttons: set<MouseButton>, globalX: int, globalY: int)
      modifies this`x, this`y, bubble`x, bubble`y
      ensures buttons == {Left} ==> (x, y) == DragTarget((globalX, globalY), dragOffset)
      ensures buttons != {Left} ==> x == old(x) && y == old(y) && bubble.x == old(bubble.x) && bubble.y == old(bubble.y)
      ensures buttons == {Left} && bubble.visible ==> (bubble.x, bubble.y) == BubblePosition(Geometry(), bubble.width, bubble.height, screen)
    {
      if buttons == {Left} {
        var (nx, ny) := DragTarget((globalX, globalY), dragOffset);
        Move(nx, ny);
      }
    }

    /** `show_message` followed by `_update_bubble_position`, the pair every
        branch of `_on_send_message` runs. */
    method Show(t: string, duration: int)
      requires bubble.Valid()
      modifies bubble
      ensures bubble.Valid() && bubble.text == t && bubble.visible
      ensures bubble.width == BubbleWidth(bubble.measure(t).0) && bubble.height == BubbleHeight(bubble.measure(t).1)
      ensures duration > 0 ==> bubble.timerActive && bubble.timerInterval == duration
      ensures duration <= 0 ==> bubble.timerActive == old(bubble.timerActive) && bubble.timerInterval == old(bubble.timerInterval)
      ensures bubble.fadingOut == old(bubble.fadingOut)
      ensures bubble.shown == old(bubble.shown) + [(t, duration)]
      ensures (bubble.x, bubble.y) == BubblePosition(Geometry(), bubble.width, bubble.height, screen)
    {
      bubble.ShowMessage(t, duration);
      UpdateBubblePosition();
    }

    /** The part of `_on_send_message` after "思考中..." is shown: the
        client is asked, or the missing client is reported, and `Answer` is
        shown and placed. */
    method Respond(message: string, outcome: Outcome, escaped: Option<string>)
      requires Valid()
      modifies bubble, client
      ensures Valid()
      ensures var answer := Answer(client != null, outcome, escaped);
              && bubble.shown == old(bubble.shown) + [answer]
              && bubble.visible && bubble.text == answer.0
              && bubble.width == BubbleWidth(bubble.measure(answer.0).0) && bubble.height == BubbleHeight(bubble.measure(answer.0).1)
              && bubble.fadingOut == old(bubble.fadingOut)
              && bubble.timerActive && bubble.timerInterval == answer.1
              && (bubble.x, bubble.y) == BubblePosition(Geometry(), bubble.width, bubble.height, screen)
      ensures client != null && escaped.None? && outcome.Generated? ==>
                client.chatHistory == old(client.chatHistory)
                  + [ChatEntry(User, message), ChatEntry(Assistant, ReplyText(outcome.text))]
      ensures client != null && (escaped.Some? || outcome.Raised?) ==>
                client.chatHistory == old(client.chatHistory)
    {
      if client != null {
        if escaped.Some? {
          Show(ERROR_PREFIX + escaped.value, ERROR_DURATION);
        } else {
          var response := client.SendMessage(message, outcome);
          Show(response, REPLY_DURATION);
        }
      } else {
        Show(NO_CLIENT, NO_CLIENT_DURATION);
      }
    }

    /** `_on_send_message`. Input that strips to nothing changes nothing.
        Otherwise the field is cleared, "思考中..." is shown with no
        auto-hide, and then `Answer` is shown and placed. Only a response
        from the model adds to the client's history. `escaped` is the message
        of an exception `send_message` does not catch. */
    method OnSendMessage(outcome: Outcome, escaped: Option<string>)
      requires Valid()
      modifies this`inputText, bubble, client
      ensures Valid()
      ensures Strip(old(inputText)) == [] ==>
                inputText == old(inputText) && unchanged(bubble) && (client != null ==> unchanged(client))
      ensures Strip(old(inputText)) != [] ==>
                var answer := Answer(client != null, outcome, escaped);
                && inputText == ""
                && bubble.shown == old(bubble.shown) + [(THINKING, 0), answer]
                && bubble.visible && bubble.text == answer.0
                && bubble.width == BubbleWidth(bubble.measure(answer.0).0) && bubble.height == BubbleHeight(bubble.measure(answer.0).1)
                && bubble.fadingOut == old(bubble.fadingOut)
                && bubble.timerActive && bubble.timerInterval == answer.1
                && (bubble.x, bubble.y) == BubblePosition(Geometry(), bubble.width, bubble.height, screen)
      ensures Strip(old(inputText)) != [] && client != null && escaped.None? && outcome.Generated? ==>
                client.chatHistory == old(client.chatHistory)
                  + [ChatEntry(User, Strip(old(inputText))), ChatEntry(Assistant, ReplyText(outcome.text))]
      ensures Strip(old(inputText)) != [] && client != null && (escaped.Some? || outcome.Raised?) ==>
                client.chatHistory == old(client.chatHistory)
    {
      var message := Strip(inputText);
      if message != [] {
        Send(message, outcome, escaped);
      }
    }

    /** `_on_send_message` for a message that is not blank: the field is
        cleared, "思考中..." is shown with no auto-hide, and the client is
        asked. */
    method Send(message: string, outcome: Outcome, escaped: Option<string>)
      requires Valid()
      modifies this`inputText, bubble, client
      ensures Valid()
      ensures var answer := Answer(client != null, outcome, escaped);
              && inputText == ""
              && bubble.shown == old(bubble.shown) + [(THINKING, 0), answer]
              && bubble.visible && bubble.text == answer.0
              && bubble.width == BubbleWidth(bubble.measure(answer.0).0) && bubble.height == BubbleHeight(bubble.measure(answer.0).1)
              && bubble.fadingOut == old(bubble.fadingOut)
              && bubble.timerActive && bubble.timerInterval == answer.1
              && (bubble.x, bubble.y) == BubblePosition(Geometry(), bubble.width, bubble.height, screen)
      ensures client != null && escaped.None? && outcome.Generated? ==>
                client.chatHistory == old(client.chatHistory)
                  + [ChatEntry(User, message), ChatEntry(Assistant, ReplyText(outcome.text))]
      ensures client != null && (escaped.Some? || outcome.Raised?) ==>
                client.chatHistory == old(client.chatHistory)
    {
      inputText := "";
      Show(THINKING, 0);
      Respond(message, outcome, escaped);
    }
  }
}
