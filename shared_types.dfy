/**
 * The props of the components, as declared in src/shared/index.types.ts.
 * Renderable content (a ReactNode) is the type parameter `N`; nothing here
 * looks inside it.
 */
module SharedTypes {
  import opened Wrappers

  /** IShowProps: `when` is required, `fallback` optional. */
  datatype ShowProps<N> = ShowProps(when: bool, fallback: Option<N>, children: N)

  /**
   * IForProps: `items` is optional (absent and empty are one case for the
   * fallback), and `children` maps an item and its index to content.
   */
  datatype ForProps<!T, N> = ForProps(items: Option<seq<T>>, fallback: Option<N>, children: (T, nat) -> N)

  /** ICaseProps: unlike Show, `when` may be omitted. */
  datatype CaseProps<N> = CaseProps(when: Option<bool>, children: N)

  /**
   * One child of a Switch: either a `Case` element (recognised in the source
   * by its element type) or any other node.
   */
  datatype SwitchChild<N> = CaseElement(props: CaseProps<N>) | OtherNode(node: N)

  /** ISwitchProps: an ordered list of children and an optional fallback. */
  datatype SwitchProps<N> = SwitchProps(fallback: Option<N>, children: seq<SwitchChild<N>>)

  /** `to`: "up" | "down" | "left" | "right". */
  datatype Direction = Up | Down | Left | Right

  /** `scrollWidth`: the sentinel "max", or a number. */
  datatype ScrollWidth = Max | Offset(n: int)

  /** `behavior`: "smooth" | "auto". */
  datatype Behavior = Smooth | Auto

  /**
   * IScrollToProps without its presentation fields (title, className, style).
   * `onClick` is the identity `C` of the caller's callback, when one is given.
   */
  datatype ScrollToProps<C> = ScrollToProps(
    to: Option<Direction>,
    scrollWidth: Option<ScrollWidth>,
    onClick: Option<C>,
    isClickable: Option<bool>,
    behavior: Option<Behavior>)
}
