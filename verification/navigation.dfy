/** Single-level stack navigation: a container that shows either its root
    view or one injected detail view, chosen by an externally owned flag,
    with a per-role transition and a back control on the detail view. */
module Navigation {
  import opened Bindings

  /** The edge a `.move(edge:)` transition slides from and towards. */
  datatype Edge = Leading | Trailing

  /** An `AnyTransition`, kept as an opaque token: the identity transition,
      a move from one edge, or any other transition a caller supplies. */
  datatype Animation = Identity | Move(edge: Edge) | Supplied(id: nat)

  /** The transition kinds of a stack navigation view. */
  datatype StackNavigationTransition = None | DefaultTransition | Custom(transition: Animation)
  {
    /** The hand-written `==`: it compares the case only, so any two
        `Custom` kinds are equal whatever transition they carry. */
    predicate Equals(other: StackNavigationTransition)
      ensures this == other ==> Equals(other)
      ensures Equals(other) && !Custom? ==> this == other
      ensures Custom? && other.Custom? ==> Equals(other)
    {
      match (this, other)
      case (None, None) => true
      case (DefaultTransition, DefaultTransition) => true
      case (Custom(_), Custom(_)) => true
      case _ => false
    }

    /** The transition applied to the detail view (and to the root view
        for every kind but the default one). */
    function AnyTransition(): (r: Animation)
      ensures r == Identity <==> this == None || this == Custom(Identity)
      ensures r == Move(Trailing) <==> this == DefaultTransition || this == Custom(Move(Trailing))
      ensures Custom? ==> r == transition
    {
      match this
      case None => Identity
      case DefaultTransition => Move(Trailing)
      case Custom(t) => t
    }
  }

  /** The coarse `==` is exactly structural equality, except that it
      identifies every two `Custom` kinds. */
  lemma EqualsIsNominal(a: StackNavigationTransition, b: StackNavigationTransition)
    ensures a.Equals(b) <==> a == b || (a.Custom? && b.Custom?)
  {
  }

  /** The coarse `==` is an equivalence relation on transition kinds. */
  lemma EqualsIsEquivalence(a: StackNavigationTransition, b: StackNavigationTransition, c: StackNavigationTransition)
    ensures a.Equals(a)
    ensures a.Equals(b) ==> b.Equals(a)
    ensures a.Equals(b) && b.Equals(c) ==> a.Equals(c)
  {
  }

  /** Kinds equal under `==` give the same transition unless both are
      `Custom`, where two "equal" kinds may animate differently. */
  lemma EqualsDeterminesTransitionOnlyWithoutPayload(a: StackNavigationTransition, b: StackNavigationTransition)
    ensures a.Equals(b) && !a.Custom? ==> a.AnyTransition() == b.AnyTransition()
    ensures Custom(Identity).Equals(Custom(Move(Leading)))
    ensures Custom(Identity).AnyTransition() != Custom(Move(Leading)).AnyTransition()
  {
  }

  /** The two roles a rendered view can play. */
  datatype Role = Root | Detail

  /** Stacking order: the root sits behind, the detail in front. */
  function ZIndex(role: Role): int
  {
    match role
    case Root => -1
    case Detail => 1
  }

  /** The transition a view receives in a role: the root slides from the
      leading edge for the default kind; otherwise both roles use the kind's
      own transition. */
  function RoleTransition(kind: StackNavigationTransition, role: Role): (r: Animation)
    ensures role == Detail || kind != DefaultTransition ==> r == kind.AnyTransition()
    ensures kind == DefaultTransition ==> r == Move(if role == Root then Leading else Trailing)
  {
    match role
    case Root => if kind.Equals(DefaultTransition) then Move(Leading) else kind.AnyTransition()
    case Detail => kind.AnyTransition()
  }

  /** Root and detail animate differently exactly for the default kind,
      where they slide from opposite edges; `None` gives the identity to
      both and `Custom(t)` gives `t` to both. */
  lemma RoleTransitionAsymmetry(kind: StackNavigationTransition)
    ensures RoleTransition(kind, Root) != RoleTransition(kind, Detail) <==> kind == DefaultTransition
    ensures kind == DefaultTransition ==>
              RoleTransition(kind, Root) == Move(Leading) && RoleTransition(kind, Detail) == Move(Trailing)
    ensures kind == None ==> RoleTransition(kind, Root) == Identity == RoleTransition(kind, Detail)
    ensures kind.Custom? ==>
              RoleTransition(kind, Root) == kind.transition == RoleTransition(kind, Detail)
  {
  }

  /** Payload of a view: an explicit empty view, or some content. */
  datatype View = Empty | Content(name: string)

  /** What the container renders: one view, in one role, with its stacking
      order, its transition and whether a back control is attached. */
  datatype Rendered = Rendered(role: Role, view: View, zIndex: int, transition: Animation, hasBackButton: bool)

  /** The container's body for the current values of its two bindings. */
  function Render(rootView: View, kind: StackNavigationTransition, currentSubview: View, showingSubview: bool): (r: Rendered)
    ensures r.role == Detail <==> showingSubview
    ensures r.view == (if showingSubview then currentSubview else rootView)
    ensures r.hasBackButton <==> showingSubview
    ensures r.zIndex == ZIndex(r.role) && r.transition == RoleTransition(kind, r.role)
  {
    if !showingSubview then
      Rendered(Root, rootView, ZIndex(Root), RoleTransition(kind, Root), false)
    else
      Rendered(Detail, currentSubview, ZIndex(Detail), RoleTransition(kind, Detail), true)
  }

  /** Whatever the bindings hold, the detail view is stacked strictly above
      the root view, and only the detail view carries a back control. */
  lemma DetailAboveRoot(rootView: View, kind: StackNavigationTransition, currentSubview: View)
    ensures Render(rootView, kind, currentSubview, true).zIndex > Render(rootView, kind, currentSubview, false).zIndex
    ensures Render(rootView, kind, currentSubview, true).hasBackButton
    ensures !Render(rootView, kind, currentSubview, false).hasBackButton
  {
  }

  /** The values of the container's two bindings. */
  datatype NavState = NavState(currentSubview: View, showingSubview: bool)

  /** The state the back control leaves: the payload cleared to the empty
      view and the flag reset, whatever the bindings held before. */
  function AfterBack(s: NavState): NavState
  {
    NavState(Empty, false)
  }

  /** What happens to the bindings: the caller navigates forward by setting
      a payload together with the flag, or the user presses back. */
  datatype Event = Open(payload: View) | PressBack

  function Step(s: NavState, e: Event): NavState
  {
    match e
    case Open(v) => NavState(v, true)
    case PressBack => AfterBack(s)
  }

  /** The bindings after a sequence of events. */
  function Run(s: NavState, events: seq<Event>): NavState
    decreases |events|
  {
    if events == [] then s else Run(Step(s, events[0]), events[1..])
  }

  /** No stale detail content is kept while the root view is shown. */
  predicate NoStalePayload(s: NavState)
  {
    !s.showingSubview ==> s.currentSubview == Empty
  }

  /** Starting with no stale payload, every sequence of forward navigations
      and back presses keeps none. */
  lemma {:induction false} RunKeepsNoStalePayload(s: NavState, events: seq<Event>)
    requires NoStalePayload(s)
    ensures NoStalePayload(Run(s, events))
    decreases |events|
  {
    if events != [] {
      RunKeepsNoStalePayload(Step(s, events[0]), events[1..]);
    }
  }

  /** Pressing back any positive number of times in a row has the effect of
      one press: the extra presses write the same values again. */
  lemma {:induction false} RepeatedBackIsOneBack(s: NavState, events: seq<Event>)
    requires |events| >= 1
    requires forall i :: 0 <= i < |events| ==> events[i] == PressBack
    ensures Run(s, events) == AfterBack(s)
    decreases |events|
  {
    if |events| > 1 {
      RepeatedBackIsOneBack(Step(s, events[0]), events[1..]);
    }
  }

  /** Whatever happened before, a trace that ends with a back press leaves
      the root view rendered, behind, without a back control. */
  lemma {:induction false} RunEndingWithBackShowsRoot(s: NavState, events: seq<Event>, rootView: View, kind: StackNavigationTransition)
    requires |events| >= 1 && events[|events| - 1] == PressBack
    ensures var t := Run(s, events);
      Render(rootView, kind, t.currentSubview, t.showingSubview) == Rendered(Root, rootView, -1, RoleTransition(kind, Root), false)
    decreases |events|
  {
    if |events| > 1 {
      RunEndingWithBackShowsRoot(Step(s, events[0]), events[1..], rootView, kind);
    }
  }

  /** The navigation container. Its root view and transition are fixed at
      construction; the shown payload and the visibility flag live in two
      bindings owned by the caller. */
  class StackNavigationView {
    const rootView: View
    const transition: StackNavigationTransition
    const currentSubview: Binding<View>
    const showingSubview: Binding<bool>

    constructor (currentSubview: Binding<View>, showingSubview: Binding<bool>,
                 transition: StackNavigationTransition, rootView: View)
      ensures this.currentSubview == currentSubview && this.showingSubview == showingSubview
      ensures this.transition == transition && this.rootView == rootView
    {
      this.rootView := rootView;
      this.transition := transition;
      this.currentSubview := currentSubview;
      this.showingSubview := showingSubview;
    }

    /** The current values of the two bindings. */
    function State(): NavState
      reads currentSubview, showingSubview
    {
      NavState(currentSubview.value, showingSubview.value)
    }

    /** The body, read from the live values of the bindings: the root
        view behind without a back control while the flag is false, the
        current payload in front with one while it is true. */
    function Body(): (r: Rendered)
      reads currentSubview, showingSubview
      ensures r.view == (if showingSubview.value then currentSubview.value else rootView)
      ensures r.hasBackButton <==> showingSubview.value
      ensures r.zIndex == (if showingSubview.value then 1 else -1)
    {
      Render(rootView, transition, currentSubview.value, showingSubview.value)
    }

    /** The back control's action: clear the payload to the empty view, then
        reset the flag. `animated` tells whether the flag write was wrapped
        in a spring animation transaction. The new state does not depend on
        the old one, so a second activation changes nothing. */
    method Back() returns (animated: bool)
      modifies currentSubview, showingSubview
      ensures State() == AfterBack(old(State()))
      ensures currentSubview.value == Empty && !showingSubview.value
      ensures animated <==> transition == DefaultTransition
      ensures Body() == Rendered(Root, rootView, ZIndex(Root), RoleTransition(transition, Root), false)
    {
      currentSubview.value := Empty;
      match transition {
        case DefaultTransition =>
          animated := true;
          showingSubview.value := false;
        case _ =>
          animated := false;
          showingSubview.value := false;
      }
    }
  }

  /** The navigation round trip with the default transition: the caller
      opens "Settings Panel A" and the user presses back twice. */
  method DefaultScenario(rootView: View) returns (shown: Rendered, afterBack: Rendered, animated: bool, afterSecondBack: Rendered)
    ensures shown == Rendered(Detail, Content("Settings Panel A"), 1, Move(Trailing), true)
    ensures afterBack == Rendered(Root, rootView, -1, Move(Leading), false)
    ensures animated
    ensures afterSecondBack == afterBack
  {
    var payload := new Binding(Empty);
    var showing := new Binding(false);
    var nav := new StackNavigationView(payload, showing, DefaultTransition, rootView);
    payload.value := Content("Settings Panel A");
    showing.value := true;
    shown := nav.Body();
    animated := nav.Back();
    afterBack := nav.Body();
    var _ := nav.Back();
    afterSecondBack := nav.Body();
  }
}
