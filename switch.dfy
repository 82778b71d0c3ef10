/**
 * The `Switch` component (src/components/SwitchGroup/Switch/Switch.tsx):
 * shows the first `Case` child whose `when` is true, else a truthy
 * fallback, else nothing.
 */
module SwitchComponent {
  import opened Wrappers
  import opened SharedTypes
  import opened Fragments
  import opened CaseComponent

  /**
   * What Switch returns: the matched `Case` element itself (not only its
   * children), the fallback, or `null`.
   */
  datatype Selected<N> = Matched(caseProps: CaseProps<N>) | FallbackChosen(node: N) | Empty

  /** The test of the `find` callback: a `Case` element whose `when` is truthy. */
  predicate IsActiveCase<N>(child: SwitchChild<N>)
  {
    child.CaseElement? && IsOn(child.props.when)
  }

  /** Some child passes the `find` test. */
  predicate HasActive<N>(children: seq<SwitchChild<N>>)
  {
    exists i :: 0 <= i < |children| && IsActiveCase(children[i])
  }

  /** Child `i` passes the `find` test and no child before it does. */
  predicate IsFirstActive<N>(children: seq<SwitchChild<N>>, i: nat)
    requires i < |children|
  {
    IsActiveCase(children[i]) && forall j :: 0 <= j < i ==> !IsActiveCase(children[j])
  }

  /**
   * `children.find(...)`: scans left to right and keeps the first active
   * `Case`; any other node is passed over whatever it holds.
   */
  function FindActive<N>(children: seq<SwitchChild<N>>): (r: Option<CaseProps<N>>)
    ensures r.None? <==> !HasActive(children)
    ensures r.Some? ==>
      exists i :: 0 <= i < |children| && IsFirstActive(children, i) && children[i] == CaseElement(r.value)
  {
    if children == [] then None
    else if IsActiveCase(children[0]) then
      assert IsFirstActive(children, 0);
      Some(children[0].props)
    else
      var r := FindActive(children[1..]);
      assert HasActive(children[1..]) <==> HasActive(children) by {
        if HasActive(children) {
          var i :| 0 <= i < |children| && IsActiveCase(children[i]);
          assert children[1..][i - 1] == children[i];
        }
      }
      assert r.Some? ==> exists i :: 0 <= i < |children| && IsFirstActive(children, i) && children[i] == CaseElement(r.value) by {
        if r.Some? {
          var k :| 0 <= k < |children[1..]| && IsFirstActive(children[1..], k) && children[1..][k] == CaseElement(r.value);
          assert IsFirstActive(children, k + 1);
        }
      }
      r
  }

  /** The component: lines 27 to 32 of Switch.tsx. */
  function Switch<N>(props: SwitchProps<N>, truthy: N -> bool): (r: Selected<N>)
    ensures r.Matched? <==> HasActive(props.children)
    ensures r.Matched? ==>
      exists i :: 0 <= i < |props.children| && IsFirstActive(props.children, i)
        && props.children[i] == CaseElement(r.caseProps)
    ensures !HasActive(props.children) && TruthyOpt(props.fallback, truthy) ==>
      r == FallbackChosen(props.fallback.value)
    ensures !HasActive(props.children) && !TruthyOpt(props.fallback, truthy) ==> r == Empty
  {
    var active := FindActive(props.children);
    if active.Some? then Matched(active.value)
    else if TruthyOpt(props.fallback, truthy) then FallbackChosen(props.fallback.value)
    else Empty
  }

  /** What finally appears on screen: a matched `Case` element renders as `Case` does. */
  function Rendered<N>(s: Selected<N>): (r: Fragment<N>)
  {
    match s
    case Matched(p) => Case(p)
    case FallbackChosen(n) => Fallback(n)
    case Empty => Null
  }

  /** A matched Case is on, so what it shows is exactly its children. */
  lemma MatchedShowsItsChildren<N>(props: SwitchProps<N>, truthy: N -> bool)
    requires Switch(props, truthy).Matched?
    ensures Rendered(Switch(props, truthy)) == Children(Switch(props, truthy).caseProps.children)
  {
  }

  /** The children with every non-`Case` node removed. */
  function CasesOnly<N>(children: seq<SwitchChild<N>>): (r: seq<SwitchChild<N>>)
    ensures forall k :: 0 <= k < |r| ==> r[k].CaseElement?
    ensures forall x :: x in children && x.CaseElement? ==> x in r
    ensures forall x :: x in r ==> x in children
  {
    if children == [] then []
    else (if children[0].CaseElement? then [children[0]] else []) + CasesOnly(children[1..])
  }

  /** Non-`Case` children never take part in the search, whatever they contain. */
  lemma {:induction false} FindIgnoresOtherNodes<N>(children: seq<SwitchChild<N>>)
    ensures FindActive(CasesOnly(children)) == FindActive(children)
  {
    if children != [] {
      FindIgnoresOtherNodes(children[1..]);
      var head := if children[0].CaseElement? then [children[0]] else [];
      var rest := CasesOnly(children[1..]);
      assert CasesOnly(children) == head + rest;
      if children[0].CaseElement? {
        assert (head + rest)[0] == children[0];
        assert (head + rest)[1..] == rest;
      } else {
        assert head + rest == rest;
      }
    }
  }

  /** Switch gives the same answer once its non-`Case` children are dropped. */
  lemma SwitchIgnoresOtherNodes<N>(fallback: Option<N>, children: seq<SwitchChild<N>>, truthy: N -> bool)
    ensures Switch(SwitchProps(fallback, CasesOnly(children)), truthy) == Switch(SwitchProps(fallback, children), truthy)
  {
    FindIgnoresOtherNodes(children);
  }

  /** Children after a match are never looked at. */
  lemma {:induction false} FindAppendAfterMatch<N>(xs: seq<SwitchChild<N>>, ys: seq<SwitchChild<N>>)
    requires HasActive(xs)
    ensures FindActive(xs + ys) == FindActive(xs)
  {
    assert (xs + ys)[0] == xs[0];
    if !IsActiveCase(xs[0]) {
      var i :| 0 <= i < |xs| && IsActiveCase(xs[i]);
      assert xs[1..][i - 1] == xs[i];
      FindAppendAfterMatch(xs[1..], ys);
      assert (xs + ys)[1..] == xs[1..] + ys;
    }
  }

  /** Appending children after an existing match changes nothing. */
  lemma SwitchAppendAfterMatch<N>(fallback: Option<N>, xs: seq<SwitchChild<N>>, ys: seq<SwitchChild<N>>, truthy: N -> bool)
    requires HasActive(xs)
    ensures Switch(SwitchProps(fallback, xs + ys), truthy) == Switch(SwitchProps(fallback, xs), truthy)
  {
    FindAppendAfterMatch(xs, ys);
  }

  /** With no active Case, the children might as well be the empty list. */
  lemma SwitchNoMatchIsEmptyList<N>(fallback: Option<N>, children: seq<SwitchChild<N>>, truthy: N -> bool)
    requires !HasActive(children)
    ensures Switch(SwitchProps(fallback, children), truthy) == Switch(SwitchProps(fallback, []), truthy)
    ensures Switch(SwitchProps(fallback, children), truthy)
      == if TruthyOpt(fallback, truthy) then FallbackChosen(fallback.value) else Empty
  {
  }
}
