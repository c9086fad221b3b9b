/** The models.dev price selection of controller/ratio_sync.go: for each model, one candidate out of
    all providers, scanned in name order and compared within a tolerance. */
module ModelsDev {
  import opened Base
  import PriceDiff

  /** A float64 cost. */
  datatype Num = Finite(x: real) | Infinite | NaN

  datatype Cost = Cost(input: Option<Num>, output: Option<Num>, cacheRead: Option<Num>)

  datatype Candidate = Candidate(provider: string, input: real, output: Option<real>, cacheRead: Option<real>)

  /** provider -> model -> cost */
  type Upstream = map<string, map<string, Cost>>

  predicate ValidCost(n: Num) { n.Finite? && n.x >= 0.0 }

  /** buildModelsDevCandidate. */
  function Build(provider: string, cost: Cost): Option<Candidate> {
    if cost.input == None || !ValidCost(cost.input.value) then None
    else if cost.output.Some? && !ValidCost(cost.output.value) then None
    else if cost.input.value.x == 0.0 && cost.output.Some? && cost.output.value.x > 0.0 then None
    else Some(Candidate(provider, cost.input.value.x,
                        if cost.output.Some? then Some(cost.output.value.x) else None,
                        if cost.cacheRead.Some? && ValidCost(cost.cacheRead.value) then Some(cost.cacheRead.value.x)
                        else None))
  }

  /** Go's string order. */
  predicate Before(a: string, b: string)
    decreases |a|
  {
    b != "" && (a == "" || a[0] < b[0] || (a[0] == b[0] && Before(a[1..], b[1..])))
  }

  lemma {:induction false} BeforeIsAsymmetric(a: string, b: string)
    requires Before(a, b)
    ensures !Before(b, a)
    decreases |a|
  {
    if a != "" && a[0] == b[0] {
      BeforeIsAsymmetric(a[1..], b[1..]);
    }
  }

  /** shouldReplaceModelsDevCandidate. */
  predicate ShouldReplace(current: Candidate, next: Candidate) {
    var currentNonZero, nextNonZero := current.input > 0.0, next.input > 0.0;
    if currentNonZero != nextNonZero then nextNonZero
    else if nextNonZero && !PriceDiff.NearlyEqual(next.input, current.input) then next.input < current.input
    else Before(next.provider, current.provider)
  }

  /** The candidate a provider offers for a model. */
  function Offer(upstream: Upstream, provider: string, model: string): Option<Candidate> {
    if provider in upstream && model in upstream[provider] then Build(provider, upstream[provider][model]) else None
  }

  function Better(current: Option<Candidate>, next: Option<Candidate>): Option<Candidate> {
    if next == None then current
    else if current == None || ShouldReplace(current.value, next.value) then next
    else current
  }

  /** The candidate selected for one model after scanning the providers. */
  function Pick(upstream: Upstream, providers: seq<string>, model: string): Option<Candidate> {
    if providers == [] then None
    else
      var n := |providers| - 1;
      Better(Pick(upstream, providers[..n], model), Offer(upstream, providers[n], model))
  }

  ghost predicate Ordered(providers: seq<string>) {
    forall i, j :: 0 <= i < j < |providers| ==> Before(providers[i], providers[j])
  }

  function Get(m: map<string, Candidate>, model: string): Option<Candidate> {
    if model in m then Some(m[model]) else None
  }

  /** The inner loop over one provider's models, in any order. */
  method ScanProvider(upstream: Upstream, provider: string, before: map<string, Candidate>)
    returns (selected: map<string, Candidate>)
    requires provider in upstream
    ensures forall model :: Get(selected, model) == Better(Get(before, model), Offer(upstream, provider, model))
  {
    selected := before;
    var names := upstream[provider].Keys;
    while names != {}
      invariant names <= upstream[provider].Keys
      invariant forall model :: Get(selected, model) ==
                  if model in names then Get(before, model)
                  else Better(Get(before, model), Offer(upstream, provider, model))
      decreases |names|
    {
      var model :| model in names;
      var candidate := Build(provider, upstream[provider][model]);
      if candidate.Some? && (model !in selected || ShouldReplace(selected[model], candidate.value)) {
        selected := selected[model := candidate.value];
      }
      names := names - {model};
    }
  }

  /** The selection loop; `providers` is the sorted list of provider names. */
  method Select(upstream: Upstream, providers: seq<string>) returns (selected: map<string, Candidate>)
    requires Ordered(providers) && forall p :: p in providers <==> p in upstream
    ensures forall model :: model in selected <==> Pick(upstream, providers, model).Some?
    ensures forall model :: model in selected ==> selected[model] == Pick(upstream, providers, model).value
  {
    selected := map[];
    for i := 0 to |providers|
      invariant forall model :: model in selected <==> Pick(upstream, providers[..i], model).Some?
      invariant forall model :: model in selected ==> selected[model] == Pick(upstream, providers[..i], model).value
    {
      assert providers[..i + 1][..i] == providers[..i];
      assert providers[i] in upstream;
      selected := ScanProvider(upstream, providers[i], selected);
    }
    assert providers[..|providers|] == providers;
  }

  // ----- what is selected -----

  /** The provider's offer does not beat the selected candidate by the tolerance or more, and a free
      selection means a free offer. */
  ghost predicate NotBeaten(s: Candidate, c: Candidate) {
    (c.input > 0.0 ==> 0.0 < s.input < c.input + PriceDiff.Epsilon) && (s.input == 0.0 ==> c.input == 0.0)
  }

  /** A replacement never gives up what the earlier candidate was better than. */
  lemma ReplaceKeepsBest(current: Candidate, next: Candidate, c: Candidate)
    requires current.input >= 0.0 && next.input >= 0.0 && c.input >= 0.0
    requires Before(current.provider, next.provider) && NotBeaten(current, c)
    ensures ShouldReplace(current, next) ==> NotBeaten(next, c)
    ensures !ShouldReplace(current, next) ==> NotBeaten(current, next)
    ensures ShouldReplace(current, next) ==>
            (next.input > 0.0 && (current.input > 0.0 ==> next.input + PriceDiff.Epsilon <= current.input))
  {
    BeforeIsAsymmetric(current.provider, next.provider);
  }

  /** Whatever the providers: something is selected exactly if some provider has a valid cost; it is
      one of the offers; no offer undercuts it by the tolerance or more; and it is free only if every
      offer is free. The tolerance comparison itself is not transitive. */
  lemma {:induction false} PickIsCheapest(upstream: Upstream, providers: seq<string>, model: string)
    requires Ordered(providers)
    ensures var r := Pick(upstream, providers, model);
            && (r.Some? <==> exists i :: 0 <= i < |providers| && Offer(upstream, providers[i], model).Some?)
            && (r.Some? ==>
                  r.value.input >= 0.0 && exists i :: 0 <= i < |providers| && Offer(upstream, providers[i], model) == r
                                                      && r.value.provider == providers[i])
            && (r.Some? ==> forall i :: 0 <= i < |providers| && Offer(upstream, providers[i], model).Some? ==>
                  NotBeaten(r.value, Offer(upstream, providers[i], model).value))
  {
    if providers != [] {
      var n := |providers| - 1;
      var init := providers[..n];
      PickIsCheapest(upstream, init, model);
      assert forall i :: 0 <= i < n ==> init[i] == providers[i];
      var current, next := Pick(upstream, init, model), Offer(upstream, providers[n], model);
      if current.Some? && next.Some? {
        forall i | 0 <= i < n && Offer(upstream, providers[i], model).Some?
          ensures ShouldReplace(current.value, next.value) ==>
                  NotBeaten(next.value, Offer(upstream, providers[i], model).value)
        {
          ReplaceKeepsBest(current.value, next.value, Offer(upstream, init[i], model).value);
        }
        ReplaceKeepsBest(current.value, next.value, current.value);
      }
    }
  }
}
