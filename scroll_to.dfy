/**
 * The `ScrollTo` button (src/components/ScrollTo.tsx): rendering fixes the
 * scroll options, and a click asks the window to scroll and then runs the
 * caller's callback.
 */
module ScrollToComponent {
  import opened Wrappers
  import opened SharedTypes

  /** The offset the "max" sentinel stands for: a fixed 200, not the page's extent. */
  const MaxOffset: int := 200

  /** `["up", "down"].includes(to)`. */
  predicate IsVertical(to: Direction)
  {
    to == Up || to == Down
  }

  /** `["right", "left"].includes(to)`. */
  predicate IsHorizontal(to: Direction)
  {
    to == Right || to == Left
  }

  /** `scrollWidth === "max" ? 200 : scrollWidth`. */
  function Magnitude(w: ScrollWidth): (m: int)
  {
    match w
    case Max => MaxOffset
    case Offset(n) => n
  }

  /** The `ScrollToOptions` handed to `window.scrollTo`. */
  datatype ScrollOptions = ScrollOptions(top: int, left: int, behavior: Behavior)

  /** The props after the destructuring defaults of line 31 are applied. */
  datatype Settings<C> = Settings(
    to: Direction,
    scrollWidth: ScrollWidth,
    onClick: Option<C>,
    isClickable: bool,
    behavior: Behavior)

  /** Defaults: `to = "up"`, `scrollWidth = "max"`, `isClickable = true`, `behavior = "smooth"`. */
  function WithDefaults<C>(props: ScrollToProps<C>): (s: Settings<C>)
    ensures s.to == (if props.to.Some? then props.to.value else Up)
    ensures s.scrollWidth == (if props.scrollWidth.Some? then props.scrollWidth.value else Max)
    ensures s.isClickable <==> props.isClickable != Some(false)
    ensures s.behavior == (if props.behavior.Some? then props.behavior.value else Smooth)
    ensures s.onClick == props.onClick
  {
    Settings(props.to.GetOr(Up), props.scrollWidth.GetOr(Max), props.onClick,
             props.isClickable.GetOr(true), props.behavior.GetOr(Smooth))
  }

  /**
   * `scrollOptions` (lines 32-36): the magnitude goes on the axis of the
   * direction and the other axis is 0; the behavior is passed through.
   */
  function OptionsFor(to: Direction, w: ScrollWidth, behavior: Behavior): (o: ScrollOptions)
    ensures IsVertical(to) ==> o.top == (if w.Max? then 200 else w.n) && o.left == 0
    ensures IsHorizontal(to) ==> o.left == (if w.Max? then 200 else w.n) && o.top == 0
    ensures o.behavior == behavior
  {
    ScrollOptions(
      if IsVertical(to) then Magnitude(w) else 0,
      if IsHorizontal(to) then Magnitude(w) else 0,
      behavior)
  }

  /** The options a rendered button holds. */
  function OptionsOf<C>(props: ScrollToProps<C>): (o: ScrollOptions)
  {
    var s := WithDefaults(props);
    OptionsFor(s.to, s.scrollWidth, s.behavior)
  }

  /** There is never a diagonal scroll. */
  lemma NeverDiagonal(to: Direction, w: ScrollWidth, behavior: Behavior)
    ensures OptionsFor(to, w, behavior).top == 0 || OptionsFor(to, w, behavior).left == 0
  {
  }

  /** Opposite directions give the same options: the direction never sets a sign. */
  lemma OppositeDirectionsAgree(w: ScrollWidth, behavior: Behavior)
    ensures OptionsFor(Up, w, behavior) == OptionsFor(Down, w, behavior)
    ensures OptionsFor(Left, w, behavior) == OptionsFor(Right, w, behavior)
  {
  }

  /** With every prop left out the button scrolls to `{top: 200, left: 0, behavior: "smooth"}`. */
  lemma AllDefaults<C>()
    ensures OptionsOf<C>(ScrollToProps(None, None, None, None, None)) == ScrollOptions(200, 0, Smooth)
    ensures WithDefaults<C>(ScrollToProps(None, None, None, None, None)).isClickable
  {
  }

  /** What the environment observes. */
  datatype Event<C> = ScrollRequested(options: ScrollOptions) | CallbackInvoked(callback: C)

  /**
   * The events one click produces (lines 40-44): nothing when the button is
   * not clickable; otherwise one scroll request, then the callback if there
   * is one.
   */
  function ClickEvents<C>(s: Settings<C>, options: ScrollOptions): (r: seq<Event<C>>)
    ensures !s.isClickable ==> r == []
    ensures s.isClickable ==> |r| >= 1 && r[0] == ScrollRequested(options)
    ensures forall i :: 0 < i < |r| ==> r[i].CallbackInvoked?
    ensures (exists i :: 0 <= i < |r| && r[i].CallbackInvoked?) <==> s.isClickable && s.onClick.Some?
    ensures forall i :: 0 <= i < |r| && r[i].CallbackInvoked? ==> i == 1 && r[i].callback == s.onClick.value
  {
    if !s.isClickable then []
    else if s.onClick.Some? then
      var r := [ScrollRequested(options), CallbackInvoked(s.onClick.value)];
      assert r[1].CallbackInvoked?;
      r
    else [ScrollRequested(options)]
  }

  /** Number of scroll requests in a trace. */
  function ScrollCount<C>(t: seq<Event<C>>): (n: nat)
  {
    if t == [] then 0 else (if t[0].ScrollRequested? then 1 else 0) + ScrollCount(t[1..])
  }

  /** A click requests at most one scroll, and exactly one iff the button is clickable. */
  lemma OneScrollPerClick<C>(s: Settings<C>, options: ScrollOptions)
    ensures ScrollCount(ClickEvents(s, options)) == if s.isClickable then 1 else 0
  {
    var r := ClickEvents(s, options);
    if s.isClickable {
      assert r[1..] == [] || (|r[1..]| == 1 && r[1..][0].CallbackInvoked? && r[1..][1..] == []);
      if r[1..] != [] {
        assert ScrollCount(r[1..]) == 0 + ScrollCount(r[1..][1..]);
      }
    }
  }

  /**
   * Stands in for `window`: its `trace` records every scroll request and every
   * callback run, in order.
   */
  class Window<C> {
    var trace: seq<Event<C>>

    constructor ()
      ensures trace == []
    {
      trace := [];
    }

    /** `window.scrollTo(options)`. */
    method ScrollTo(options: ScrollOptions)
      modifies this
      ensures trace == old(trace) + [ScrollRequested(options)]
    {
      trace := trace + [ScrollRequested(options)];
    }

    /** The caller's `onClick()` running. */
    method RunCallback(callback: C)
      modifies this
      ensures trace == old(trace) + [CallbackInvoked(callback)]
    {
      trace := trace + [CallbackInvoked(callback)];
    }
  }

  /** A rendered button: the props with their defaults and the options computed at render. */
  class ScrollToButton<C> {
    const settings: Settings<C>
    const scrollOptions: ScrollOptions

    /** Rendering the component (line 31 to line 36). */
    constructor (props: ScrollToProps<C>)
      ensures settings == WithDefaults(props)
      ensures scrollOptions == OptionsOf(props)
    {
      settings := WithDefaults(props);
      scrollOptions := OptionsOf(props);
    }

    /** The `onClick` handler of the button (lines 40-44). */
    method OnClick(window: Window<C>)
      modifies window
      ensures window.trace == old(window.trace) + ClickEvents(settings, scrollOptions)
    {
      if !settings.isClickable {
        return;
      }
      window.ScrollTo(scrollOptions);
      if settings.onClick.Some? {
        window.RunCallback(settings.onClick.value);
      }
    }
  }
}
