/** The `Case` component (src/components/Switch/Case.tsx). */
module CaseComponent {
  import opened Wrappers
  import opened SharedTypes
  import opened Fragments

  /** `when` is truthy: an optional boolean passes only when it is `true`. */
  predicate IsOn(when: Option<bool>)
  {
    when == Some(true)
  }

  /** Renders `children` when `when` is true, and nothing otherwise. */
  function Case<N>(props: CaseProps<N>): (r: Fragment<N>)
    ensures r.Children? <==> props.when == Some(true)
    ensures r.Children? ==> r.node == props.children
    ensures r == Children(props.children) || r == Null
  {
    if !IsOn(props.when) then Null else Children(props.children)
  }

  /** Leaving `when` out is the same as writing `when={false}`. */
  lemma OmittedWhenIsFalse<N>(children: N)
    ensures Case(CaseProps(None, children)) == Case(CaseProps(Some(false), children)) == Null
  {
  }
}
