/** SearchForProvider of the final project: one pass over the providers that keeps the
    best candidate so far. */
module ProviderSearch {

  const PRIORITY_COST := 'C'
  const PRIORITY_SPEED := 'T'
  const PRIORITY_PERFORMANCE := 'Q'
  const PROVIDER_LIMIT: nat := 2
  const INT_MAX := 0x7fff_ffff

  /** What the search reads of one provider. */
  datatype View = View(price: int, performance: int, online: bool, size: nat)

  /** The loop variables `optimum` and `index`; index -1 means none yet. */
  datatype Best = Best(optimum: int, index: int)

  function Start(priority: char): Best {
    Best(if priority == PRIORITY_PERFORMANCE then 0 else INT_MAX, -1)
  }

  /** One iteration of the loop. */
  function Consider(priority: char, v: View, i: nat, best: Best): Best {
    if priority == PRIORITY_COST then
      if v.size != PROVIDER_LIMIT && v.online && v.price < best.optimum then Best(v.price, i) else best
    else if priority == PRIORITY_SPEED then
      if v.size != PROVIDER_LIMIT && v.online && v.size < best.optimum then Best(v.size, i) else best
    else if priority == PRIORITY_PERFORMANCE then
      if v.size != PROVIDER_LIMIT && v.online && v.performance > best.optimum then Best(v.performance, i) else best
    else best
  }

  // ---------------------------------------------------------------- what the search promises

  // The requirement is written with the letters and numbers of the protocol themselves

  predicate KnownPriority(priority: char) { priority == 'C' || priority == 'T' || priority == 'Q' }

  /** The client prefers v to w: cheaper, less to wait for, or better. */
  predicate Better(priority: char, v: View, w: View) {
    match priority
    case 'C' => v.price < w.price
    case 'T' => v.size < w.size
    case _ => v.performance > w.performance
  }

  /** The provider can take a client. */
  predicate Eligible(v: View) { v.online && v.size != 2 }

  /** Its figure also beats the starting value of `optimum`. */
  predicate Acceptable(priority: char, v: View) {
    && KnownPriority(priority) && Eligible(v)
    && (priority == 'C' ==> v.price < 0x7fff_ffff)
    && (priority == 'T' ==> v.size < 0x7fff_ffff)
    && (priority == 'Q' ==> v.performance > 0)
  }

  /** The first of the best acceptable candidates. */
  ghost predicate IsFirstBest(priority: char, views: seq<View>, index: int) {
    && 0 <= index < |views| && Acceptable(priority, views[index])
    && (forall j | 0 <= j < |views| && Acceptable(priority, views[j]) ::
          !Better(priority, views[j], views[index]))
    && (forall j | 0 <= j < index && Acceptable(priority, views[j]) ::
          Better(priority, views[index], views[j]))
  }

  predicate NoneAcceptable(priority: char, views: seq<View>) {
    forall j | 0 <= j < |views| :: !Acceptable(priority, views[j])
  }

  /** What the loop variables say about the providers looked at so far. */
  ghost predicate BestSoFar(priority: char, views: seq<View>, best: Best) {
    if best.index == -1 then best == Start(priority) && NoneAcceptable(priority, views)
    else
      && IsFirstBest(priority, views, best.index)
      && best == Consider(priority, views[best.index], best.index, Start(priority))
  }

  lemma ConsiderKeeps(priority: char, views: seq<View>, v: View, best: Best)
    requires BestSoFar(priority, views, best)
    ensures BestSoFar(priority, views + [v], Consider(priority, v, |views|, best))
  {
    assert best.index != -1 ==> (views + [v])[best.index] == views[best.index];
  }

  method SearchForProvider(priority: char, views: seq<View>) returns (index: int)
    ensures index == -1 <==> NoneAcceptable(priority, views)
    ensures index != -1 ==> IsFirstBest(priority, views, index)
  {
    hide Consider, Acceptable, Better;
    var best := Start(priority);
    for i := 0 to |views|
      invariant BestSoFar(priority, views[..i], best)
    {
      ConsiderKeeps(priority, views[..i], views[i], best);
      assert views[..i + 1] == views[..i] + [views[i]];
      best := Consider(priority, views[i], i, best);
    }
    assert views[..|views|] == views;
    index := best.index;
  }

  /** With the fields that ParseFile lets through and a known priority, acceptable means
      online and not full, except that nobody is cheap enough at a price of INT_MAX. */
  lemma AcceptableIsEligible(priority: char, v: View)
    requires KnownPriority(priority)
    requires 0 < v.price <= 0x7fff_ffff && v.performance > 0 && v.size <= 2
    ensures Acceptable(priority, v) <==> Eligible(v) && !(priority == 'C' && v.price == 0x7fff_ffff)
  {}

  /** What a candidate says about the provider it names, whatever was read before it. */
  lemma ConsideredIsEligible(priority: char, v: View, i: nat, best: Best)
    ensures var next := Consider(priority, v, i, best);
      next == best || (next.index == i && Eligible(v))
  {}
}
