/** What a component hands back to React: content, a fallback, or `null`. */
module Fragments {
  import opened Wrappers

  /**
   * `Children(n)` is `<>{children}</>`, `Fallback(n)` is `<>{fallback}</>`,
   * `Null` is `return null`. The tag records which prop was chosen, so that
   * "children is never returned" can be stated even when the two props hold
   * the same node.
   */
  datatype Fragment<N> = Children(node: N) | Fallback(node: N) | Null

  /**
   * JavaScript truthiness of an optional ReactNode (`&& fallback`): an absent
   * prop is falsy; a present node is as truthy as `truthy` says (`0`, `""`
   * and `false` are present but falsy).
   */
  predicate TruthyOpt<N>(x: Option<N>, truthy: N -> bool)
  {
    x.Some? && truthy(x.value)
  }
}
