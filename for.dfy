/** The `For` component (src/components/For/For.tsx). */
module ForComponent {
  import opened Wrappers
  import opened SharedTypes

  /**
   * What For returns: `<>{fallback}</>` with the fallback exactly as given
   * (absent renders nothing), or the mapped items.
   */
  datatype ForOutput<N> = FallbackContent(fallback: Option<N>) | Items(nodes: seq<N>)

  /** `items` is absent or has length zero. */
  predicate NoItems<T>(items: Option<seq<T>>)
  {
    items.None? || |items.value| == 0
  }

  /** `items.map((item, idx) => children(item, idx))`. */
  function MapIndexed<T, N>(items: seq<T>, f: (T, nat) -> N): (r: seq<N>)
    ensures |r| == |items|
    ensures forall i :: 0 <= i < |items| ==> r[i] == f(items[i], i)
  {
    if items == [] then []
    else MapIndexed(items[..|items| - 1], f) + [f(items[|items| - 1], |items| - 1)]
  }

  /** The component: line 27 (empty or absent) and line 28 (map). */
  function For<T, N>(props: ForProps<T, N>): (r: ForOutput<N>)
    ensures NoItems(props.items) <==> r.FallbackContent?
    ensures r.FallbackContent? ==> r.fallback == props.fallback
    ensures r.Items? ==>
      |r.nodes| == |props.items.value| > 0
      && forall i :: 0 <= i < |r.nodes| ==> r.nodes[i] == props.children(props.items.value[i], i)
  {
    if NoItems(props.items) then FallbackContent(props.fallback)
    else Items(MapIndexed(props.items.value, props.children))
  }

  /** With nothing to iterate, the mapper is never applied: any other mapper gives the same output. */
  lemma FallbackNeverCallsMapper<T, N>(items: Option<seq<T>>, fallback: Option<N>, f: (T, nat) -> N, g: (T, nat) -> N)
    requires NoItems(items)
    ensures For(ForProps(items, fallback, f)) == For(ForProps(items, fallback, g)) == FallbackContent(fallback)
  {
  }

  /**
   * The mapper is consulted only at the pairs (items[i], i): two mappers that
   * agree there give the same output.
   */
  lemma MapperOnlySeesItemsAndIndices<T, N>(items: seq<T>, fallback: Option<N>, f: (T, nat) -> N, g: (T, nat) -> N)
    requires forall i :: 0 <= i < |items| ==> f(items[i], i) == g(items[i], i)
    ensures For(ForProps(Some(items), fallback, f)) == For(ForProps(Some(items), fallback, g))
  {
  }

  /** The fallback never appears among the mapped items: their output is independent of it. */
  lemma FallbackNotInItems<T, N>(items: seq<T>, f1: Option<N>, f2: Option<N>, mapper: (T, nat) -> N)
    requires items != []
    ensures For(ForProps(Some(items), f1, mapper)) == For(ForProps(Some(items), f2, mapper))
    ensures For(ForProps(Some(items), f1, mapper)) == Items(MapIndexed(items, mapper))
  {
  }

  /** Mapping `items + [x]` is mapping `items`, then `x` at index `|items|`. */
  lemma MapIndexedAppend<T, N>(items: seq<T>, x: T, f: (T, nat) -> N)
    ensures MapIndexed(items + [x], f) == MapIndexed(items, f) + [f(x, |items|)]
  {
  }

  /** For over `items + [x]` renders the items of `items`, then `children(x, |items|)`. */
  lemma ForAppend<T, N>(items: seq<T>, x: T, fallback: Option<N>, f: (T, nat) -> N)
    ensures For(ForProps(Some(items + [x]), fallback, f)) == Items(MapIndexed(items, f) + [f(x, |items|)])
    ensures items != [] ==>
      For(ForProps(Some(items + [x]), fallback, f)) == Items(For(ForProps(Some(items), fallback, f)).nodes + [f(x, |items|)])
  {
  }
}
