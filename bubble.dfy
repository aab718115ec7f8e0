/** The chat bubble: a small window that shows one message, sizes itself to
    the text and hides itself after a delay through a fade-out. Opacity,
    painting and the animations' timing are not modelled; the fade-out is a
    flag that is set when it starts and cleared when it finishes. */
module Bubble {

  const INITIAL_WIDTH: int := 300
  const INITIAL_HEIGHT: int := 100
  const MAX_WIDTH: int := 400
  const MIN_HEIGHT: int := 60
  /** `show_message`'s default duration in milliseconds. */
  const DEFAULT_DURATION: int := 10000

  /** The bubble's width for a text whose wrapped bounding rectangle is
      `textWidth` wide: 40 pixels of margin, at most 400. */
  function BubbleWidth(textWidth: nat): (r: int)
    ensures r <= MAX_WIDTH
    ensures textWidth + 40 <= MAX_WIDTH ==> r == textWidth + 40
    ensures textWidth + 40 > MAX_WIDTH ==> r == MAX_WIDTH
  {
    if textWidth + 40 < MAX_WIDTH then textWidth + 40 else MAX_WIDTH
  }

  /** The bubble's height for a text whose wrapped bounding rectangle is
      `textHeight` high: 30 pixels of margin, at least 60. */
  function BubbleHeight(textHeight: nat): (r: int)
    ensures r >= MIN_HEIGHT
    ensures textHeight + 30 >= MIN_HEIGHT ==> r == textHeight + 30
    ensures textHeight + 30 < MIN_HEIGHT ==> r == MIN_HEIGHT
  {
    if textHeight + 30 > MIN_HEIGHT then textHeight + 30 else MIN_HEIGHT
  }

  /** The state of one ChatBubble widget. `measure` stands for the font
      metrics: the width and height of a text wrapped at 280 pixels. */
  class ChatBubble {
    const measure: string -> (nat, nat)
    var text: string
    var width: int
    var height: int
    var visible: bool
    /** The single-shot auto-hide timer: whether it is running and the
        interval it was last started with. */
    var timerActive: bool
    var timerInterval: int
    /** The fade-out animation is running. */
    var fadingOut: bool
    var x: int
    var y: int
    /** Every `show_message` call, with its duration. */
    ghost var shown: seq<(string, int)>

    /** The width and height stay in the range the size rule allows. */
    ghost predicate Valid()
      reads this
    {
      width <= MAX_WIDTH && height >= MIN_HEIGHT
    }

    /** `__init__`: no text, 300 by 100, hidden, no timer running. */
    constructor (measure: string -> (nat, nat))
      ensures this.measure == measure
      ensures text == "" && width == INITIAL_WIDTH && height == INITIAL_HEIGHT
      ensures !visible && !timerActive && !fadingOut && shown == []
      ensures Valid()
    {
      this.measure := measure;
      text := "";
      width := INITIAL_WIDTH;
      height := INITIAL_HEIGHT;
      visible := false;
      timerActive := false;
      timerInterval := 0;
      fadingOut := false;
      x, y := 0, 0;
      shown := [];
    }

    /** `show_message`: stores the text, sizes the bubble to it, shows it and,
        for a positive duration, (re)starts the auto-hide timer. A duration of
        zero or less leaves the timer as it was, so a hide already pending is
        not cancelled; a fade-out already running keeps running. */
    method ShowMessage(t: string, duration: int := DEFAULT_DURATION)
      requires Valid()
      modifies this
      ensures Valid()
      ensures text == t && visible
      ensures width == BubbleWidth(measure(t).0) && height == BubbleHeight(measure(t).1)
      ensures duration > 0 ==> timerActive && timerInterval == duration
      ensures duration <= 0 ==> timerActive == old(timerActive) && timerInterval == old(timerInterval)
      ensures fadingOut == old(fadingOut) && x == old(x) && y == old(y)
      ensures shown == old(shown) + [(t, duration)]
    {
      text := t;
      var (textWidth, textHeight) := measure(t);
      width := BubbleWidth(textWidth);
      height := BubbleHeight(textHeight);
      visible := true;
      if duration > 0 {
        timerActive := true;
        timerInterval := duration;
      }
      shown := shown + [(t, duration)];
    }

    /** The auto-hide timer's timeout: the timer stops (it is single-shot)
        and `fade_out` starts the fade-out animation. */
    method TimerFires()
      requires timerActive
      modifies this`timerActive, this`fadingOut
      ensures !timerActive && fadingOut
    {
      timerActive := false;
      FadeOut();
    }

    /** `fade_out`: starts the fade-out animation (starting it again while it
        runs changes nothing). */
    method FadeOut()
      modifies this`fadingOut
      ensures fadingOut
    {
      fadingOut := true;
    }

    /** The fade-out animation's `finished` signal, connected to `hide`: the
        bubble is hidden whatever it shows, including a message shown while
        the fade-out was running. */
    method FadeOutFinished()
      requires fadingOut
      modifies this`fadingOut, this`visible
      ensures !fadingOut && !visible
    {
      fadingOut := false;
      visible := false;
    }

    /** `close`: hides the bubble; a pending timer or a running fade-out is
        left as it was. */
    method Close()
      modifies this`visible
      ensures !visible
    {
      visible := false;
    }

    /** `move`: places the bubble's top-left corner. */
    method Move(nx: int, ny: int)
      modifies this`x, this`y
      ensures x == nx && y == ny
    {
      x, y := nx, ny;
    }
  }
}
