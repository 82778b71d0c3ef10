/** The `Show` component (src/components/Show.tsx). */
module ShowComponent {
  import opened Wrappers
  import opened SharedTypes
  import opened Fragments
  import CaseComponent
  import SwitchComponent

  /**
   * Children when `when` holds; otherwise the fallback if it is truthy;
   * otherwise nothing.
   */
  function Show<N>(props: ShowProps<N>, truthy: N -> bool): (r: Fragment<N>)
    ensures props.when ==> r == Children(props.children)
    ensures !props.when && TruthyOpt(props.fallback, truthy) ==> r == Fallback(props.fallback.value)
    ensures !props.when && !TruthyOpt(props.fallback, truthy) ==> r == Null
    ensures r.Children? <==> props.when
  {
    if !props.when && TruthyOpt(props.fallback, truthy) then Fallback(props.fallback.value)
    else if props.when then Children(props.children)
    else Null
  }

  /** When `when` holds, the fallback plays no part. */
  lemma FallbackIgnoredWhenShown<N>(children: N, f1: Option<N>, f2: Option<N>, truthy: N -> bool)
    ensures Show(ShowProps(true, f1, children), truthy) == Show(ShowProps(true, f2, children), truthy)
  {
  }

  /** Without a fallback, Show behaves as a Case with the same `when`. */
  lemma ShowWithoutFallbackIsCase<N>(when: bool, children: N, truthy: N -> bool)
    ensures Show(ShowProps(when, None, children), truthy) == CaseComponent.Case(CaseProps(Some(when), children))
  {
  }

  /** Show is a Switch over the single child `<Case when={when}>children</Case>`. */
  lemma ShowIsOneCaseSwitch<N>(props: ShowProps<N>, truthy: N -> bool)
    ensures Show(props, truthy)
      == SwitchComponent.Rendered(SwitchComponent.Switch(
           SwitchProps(props.fallback, [CaseElement(CaseProps(Some(props.when), props.children))]), truthy))
  {
  }
}
