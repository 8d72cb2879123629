/** The sponsor screen of the conference app: the store's state, the reducer
    that applies actions to it, the three tier sections the view renders
    from that state, and the per-tier layout constants. */
module SponsorFeature {

  /** Sponsorship tier. Only the three cases the screen names are known here;
      `Plan` is bridged from the shared model, so a switch over it needs a
      default branch, and `OtherPlan` stands for whatever that branch would
      catch. */
  datatype Plan = Platinum | Gold | Supporter | OtherPlan

  /** One sponsor record as the repository delivers it; never changed in place. */
  datatype Sponsor = Sponsor(name: string, logo: string, plan: Plan, link: string)

  /** The store's state: the sponsors in the order the repository delivered them.
      The default argument mirrors `init(sponsors: [Sponsor] = [])`. */
  datatype SponsorState = SponsorState(sponsors: seq<Sponsor> := [])

  /** The payload of a `refreshResponse` action. The refresh effect wraps each
      list the stream emits as a success; the reducer still handles a failure,
      whose error it drops, so it carries nothing here. */
  datatype TaskResult<T> = Success(value: T) | Failure

  datatype SponsorAction = Refresh | RefreshResponse(result: TaskResult<seq<Sponsor>>)

  /** What the reducer hands back to the store besides the new state:
      nothing, or the long-lived subscription to the sponsor stream, each of
      whose emissions comes back as a `RefreshResponse`. */
  datatype Effect = NoEffect | SubscribeToSponsors

  datatype Step = Step(state: SponsorState, effect: Effect)

  predicate IsSuccess(action: SponsorAction) {
    action.RefreshResponse? && action.result.Success?
  }

  lemma DefaultStateIsEmpty()
    ensures SponsorState().sponsors == []
  {
  }

  /** `sponsorReducer`: a refresh starts the subscription and keeps the state;
      a successful response replaces the list wholesale; a failed one is
      ignored. */
  function Reduce(state: SponsorState, action: SponsorAction): (r: Step)
    ensures action.Refresh? ==> r.state == state && r.effect == SubscribeToSponsors
    ensures IsSuccess(action) ==> r.state.sponsors == action.result.value && r.effect == NoEffect
    ensures action.RefreshResponse? && action.result.Failure? ==> r.state == state && r.effect == NoEffect
    ensures r.state != state ==> IsSuccess(action)
  {
    match action
    case Refresh => Step(state, SubscribeToSponsors)
    case RefreshResponse(Success(sponsors)) => Step(state.(sponsors := sponsors), NoEffect)
    case RefreshResponse(Failure) => Step(state, NoEffect)
  }

  /** The state after the store has run the reducer on each action in turn:
      either the state it started from, or one holding exactly the list of
      some successful response among the actions. */
  function Replay(state: SponsorState, actions: seq<SponsorAction>): (r: SponsorState)
    ensures r == state
         || exists j :: 0 <= j < |actions| && IsSuccess(actions[j]) && r.sponsors == actions[j].result.value
    decreases |actions|
  {
    if actions == [] then state else Replay(Reduce(state, actions[0]).state, actions[1..])
  }

  lemma NoSuccessAfter(actions: seq<SponsorAction>, j: int)
    requires |actions| > 0 && -1 <= j < |actions|
    requires forall k :: j < k < |actions| ==> !IsSuccess(actions[k])
    ensures forall k :: 0 <= k < |actions| - 1 && j - 1 < k ==> !IsSuccess(actions[1..][k])
  {
    forall k | 0 <= k < |actions| - 1 && j - 1 < k ensures !IsSuccess(actions[1..][k]) {
      assert actions[1..][k] == actions[k + 1];
    }
  }

  /** After any sequence of actions the list is the payload of the last
      successful response, or the initial state if no response succeeded. */
  lemma {:induction false} ReplayKeepsLastSnapshot(state: SponsorState, actions: seq<SponsorAction>)
    ensures (forall j :: 0 <= j < |actions| ==> !IsSuccess(actions[j])) ==> Replay(state, actions) == state
    ensures forall j :: 0 <= j < |actions| && IsSuccess(actions[j])
                     && (forall k :: j < k < |actions| ==> !IsSuccess(actions[k]))
                     ==> Replay(state, actions).sponsors == actions[j].result.value
    decreases |actions|
  {
    if actions != [] {
      var next := Reduce(state, actions[0]).state;
      var rest := actions[1..];
      ReplayKeepsLastSnapshot(next, rest);
      if forall j :: 0 <= j < |actions| ==> !IsSuccess(actions[j]) {
        NoSuccessAfter(actions, -1);
      }
      forall j | 0 <= j < |actions| && IsSuccess(actions[j])
                 && (forall k :: j < k < |actions| ==> !IsSuccess(actions[k]))
        ensures Replay(state, actions).sponsors == actions[j].result.value
      {
        NoSuccessAfter(actions, j);
        if j > 0 {
          assert rest[j - 1] == actions[j];
        }
      }
    }
  }

  /** The order-preserving `filter { $0.plan == plan }` of the view. */
  function SponsorsOfPlan(sponsors: seq<Sponsor>, plan: Plan): (r: seq<Sponsor>)
    ensures |r| <= |sponsors|
    ensures forall x :: x in r <==> x in sponsors && x.plan == plan
  {
    if sponsors == [] then []
    else (if sponsors[0].plan == plan then [sponsors[0]] else []) + SponsorsOfPlan(sponsors[1..], plan)
  }

  /** The positions in `sponsors` of the sponsors of `plan`, ascending. */
  function PlanIndices(sponsors: seq<Sponsor>, plan: Plan): seq<nat>
  {
    if sponsors == [] then []
    else (if sponsors[0].plan == plan then [0] else []) + Shifted(PlanIndices(sponsors[1..], plan))
  }

  function Shifted(ix: seq<nat>): (r: seq<nat>)
    ensures |r| == |ix| && forall k :: 0 <= k < |ix| ==> r[k] == ix[k] + 1
  {
    seq(|ix|, k requires 0 <= k < |ix| => ix[k] + 1)
  }

  lemma ShiftedMembership(ix: seq<nat>, i: nat)
    ensures i in Shifted(ix) <==> i >= 1 && (i - 1) in ix
  {
    var r := Shifted(ix);
    if i >= 1 && (i - 1) in ix {
      var k :| 0 <= k < |ix| && ix[k] == i - 1;
      assert r[k] == i;
    }
  }

  /** The i-th sponsor of a tier's list sits at the i-th recorded position. */
  lemma {:induction false} PlanIndicesSelect(sponsors: seq<Sponsor>, plan: Plan)
    ensures |PlanIndices(sponsors, plan)| == |SponsorsOfPlan(sponsors, plan)|
    ensures forall k :: 0 <= k < |PlanIndices(sponsors, plan)| ==>
              PlanIndices(sponsors, plan)[k] < |sponsors|
              && SponsorsOfPlan(sponsors, plan)[k] == sponsors[PlanIndices(sponsors, plan)[k]]
  {
    if sponsors != [] {
      var tail := sponsors[1..];
      PlanIndicesSelect(tail, plan);
      var ix, it := PlanIndices(sponsors, plan), PlanIndices(tail, plan);
      var r, rt := SponsorsOfPlan(sponsors, plan), SponsorsOfPlan(tail, plan);
      var h := if sponsors[0].plan == plan then 1 else 0;
      assert ix == (if h == 1 then [0] else []) + Shifted(it);
      assert r == (if h == 1 then [sponsors[0]] else []) + rt;
      forall k | 0 <= k < |ix|
        ensures ix[k] < |sponsors| && r[k] == sponsors[ix[k]]
      {
        if k >= h {
          assert ix[k] == it[k - h] + 1 && r[k] == rt[k - h];
          assert sponsors[ix[k]] == tail[it[k - h]];
        }
      }
    }
  }

  /** The recorded positions ascend strictly. */
  lemma {:induction false} PlanIndicesAscend(sponsors: seq<Sponsor>, plan: Plan)
    ensures forall k, l :: 0 <= k < l < |PlanIndices(sponsors, plan)| ==>
              PlanIndices(sponsors, plan)[k] < PlanIndices(sponsors, plan)[l]
  {
    if sponsors != [] {
      var tail := sponsors[1..];
      PlanIndicesAscend(tail, plan);
      var ix, it := PlanIndices(sponsors, plan), PlanIndices(tail, plan);
      var h := if sponsors[0].plan == plan then 1 else 0;
      assert ix == (if h == 1 then [0] else []) + Shifted(it);
      forall k, l | 0 <= k < l < |ix| ensures ix[k] < ix[l] {
        assert ix[l] == it[l - h] + 1;
        if k >= h {
          assert ix[k] == it[k - h] + 1;
        }
      }
    }
  }

  /** A position is recorded exactly when its sponsor has the plan. */
  lemma {:induction false} PlanIndicesExact(sponsors: seq<Sponsor>, plan: Plan)
    ensures forall i :: 0 <= i < |sponsors| ==> (i in PlanIndices(sponsors, plan) <==> sponsors[i].plan == plan)
  {
    if sponsors != [] {
      var tail := sponsors[1..];
      PlanIndicesExact(tail, plan);
      var ix, it := PlanIndices(sponsors, plan), PlanIndices(tail, plan);
      assert ix == (if sponsors[0].plan == plan then [0] else []) + Shifted(it);
      forall i | 0 <= i < |sponsors| ensures i in ix <==> sponsors[i].plan == plan {
        ShiftedMembership(it, i);
        if i >= 1 {
          assert sponsors[i] == tail[i - 1];
        }
      }
    }
  }

  /** A tier's list is the whole list restricted to exactly the positions whose
      sponsor has that tier, taken in ascending order: nothing is dropped,
      nothing foreign is kept, and relative order is preserved. */
  lemma SponsorsOfPlanKeepsOrder(sponsors: seq<Sponsor>, plan: Plan)
    ensures |PlanIndices(sponsors, plan)| == |SponsorsOfPlan(sponsors, plan)|
    ensures forall k :: 0 <= k < |PlanIndices(sponsors, plan)| ==>
              PlanIndices(sponsors, plan)[k] < |sponsors|
              && SponsorsOfPlan(sponsors, plan)[k] == sponsors[PlanIndices(sponsors, plan)[k]]
    ensures forall k, l :: 0 <= k < l < |PlanIndices(sponsors, plan)| ==>
              PlanIndices(sponsors, plan)[k] < PlanIndices(sponsors, plan)[l]
    ensures forall i :: 0 <= i < |sponsors| ==> (i in PlanIndices(sponsors, plan) <==> sponsors[i].plan == plan)
  {
    PlanIndicesSelect(sponsors, plan);
    PlanIndicesAscend(sponsors, plan);
    PlanIndicesExact(sponsors, plan);
  }

  /** One step of the filter, counted as a multiset. */
  lemma SponsorsOfPlanCons(sponsors: seq<Sponsor>, plan: Plan)
    requires sponsors != []
    ensures multiset(SponsorsOfPlan(sponsors, plan))
         == (if sponsors[0].plan == plan then multiset{sponsors[0]} else multiset{})
          + multiset(SponsorsOfPlan(sponsors[1..], plan))
  {
  }

  /** Filtering by every plan, the named three and the rest, splits the list:
      each sponsor lands in exactly one tier list. */
  lemma {:induction false} PlansPartitionSponsors(sponsors: seq<Sponsor>)
    ensures multiset(SponsorsOfPlan(sponsors, Platinum)) + multiset(SponsorsOfPlan(sponsors, Gold))
          + multiset(SponsorsOfPlan(sponsors, Supporter)) + multiset(SponsorsOfPlan(sponsors, OtherPlan))
         == multiset(sponsors)
  {
    if sponsors != [] {
      var tail := sponsors[1..];
      PlansPartitionSponsors(tail);
      assert sponsors == [sponsors[0]] + tail;
      SponsorsOfPlanCons(sponsors, Platinum);
      SponsorsOfPlanCons(sponsors, Gold);
      SponsorsOfPlanCons(sponsors, Supporter);
      SponsorsOfPlanCons(sponsors, OtherPlan);
    }
  }

  /** The three grids of the screen, top to bottom. */
  datatype Section = PlatinumSection | GoldSection | SupporterSection

  function SectionPlan(section: Section): (p: Plan)
    ensures p != OtherPlan
  {
    match section
    case PlatinumSection => Platinum
    case GoldSection => Gold
    case SupporterSection => Supporter
  }

  /** The sponsors one grid shows. */
  function SectionSponsors(sponsors: seq<Sponsor>, section: Section): (r: seq<Sponsor>)
    ensures forall x :: x in r <==> x in sponsors && x.plan == SectionPlan(section)
    ensures forall x :: x in r ==> x.plan != OtherPlan
  {
    SponsorsOfPlan(sponsors, SectionPlan(section))
  }

  /** Every sponsor a grid shows has that grid's tier; every sponsor of that
      tier is shown in it; no two grids share a sponsor; a sponsor of any other
      plan is shown nowhere. */
  lemma SectionsPartitionTiers(sponsors: seq<Sponsor>)
    ensures forall section: Section, x :: x in SectionSponsors(sponsors, section)
              <==> x in sponsors && x.plan == SectionPlan(section)
    ensures forall s1: Section, s2: Section, x :: s1 != s2 && x in SectionSponsors(sponsors, s1)
              ==> x !in SectionSponsors(sponsors, s2)
    ensures forall section: Section, x :: x in sponsors && x.plan == OtherPlan
              ==> x !in SectionSponsors(sponsors, section)
  {
  }

  /** The grid's column count. */
  function Columns(section: Section): (r: nat)
    ensures r >= 1
    ensures r == 1 <==> section == PlatinumSection
    ensures r == 2 <==> section == GoldSection || section == SupporterSection
  {
    match section
    case PlatinumSection => 1
    case GoldSection => 2
    case SupporterSection => 2
  }

  /** `SponsorItemView.height(of:)`: the tile height for a plan, in points. */
  function Height(plan: Plan): (r: real)
    ensures r == 112.0 <==> plan == Platinum || plan == Gold
    ensures r == 72.0 <==> plan == Supporter || plan == OtherPlan
  {
    match plan
    case Platinum => 112.0
    case Gold => 112.0
    case Supporter => 72.0
    case _ => 72.0
  }

  /** All tiles of one grid have the same height, and no rendered tile reaches
      the default branch of the height mapping. */
  lemma SectionTileHeights(sponsors: seq<Sponsor>, section: Section)
    ensures forall x :: x in SectionSponsors(sponsors, section) ==>
              x.plan != OtherPlan
              && Height(x.plan) == (if section == SupporterSection then 72.0 else 112.0)
  {
  }

  /** The sample snapshot: one platinum sponsor and two gold ones in
      that order; the gold grid shows the two gold ones in that order. */
  lemma GoldSectionScenario(a: Sponsor, b: Sponsor, c: Sponsor)
    requires a.plan == Platinum && b.plan == Gold && c.plan == Gold
    ensures var state := Reduce(SponsorState(), RefreshResponse(Success([a, b, c]))).state;
            SectionSponsors(state.sponsors, GoldSection) == [b, c]
            && SectionSponsors(state.sponsors, PlatinumSection) == [a]
            && SectionSponsors(state.sponsors, SupporterSection) == []
  {
    var s := [a, b, c];
    assert s[1..] == [b, c] && s[1..][1..] == [c] && s[1..][1..][1..] == [];
    assert SponsorsOfPlan([c], Gold) == [c];
    assert SponsorsOfPlan([b, c], Gold) == [b, c];
    assert SponsorsOfPlan([c], Platinum) == [] && SponsorsOfPlan([b, c], Platinum) == [];
    assert SponsorsOfPlan([c], Supporter) == [] && SponsorsOfPlan([b, c], Supporter) == [];
  }
}
