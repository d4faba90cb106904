/**
 * The router's navigation hooks. The auth store is abstracted to its two
 * flags, read before and after the optional session refresh; the refreshed
 * state is an input, since the refresh itself is a call into the session
 * layer. The browser location assignment, the `next` callback and the
 * user-list fetch become values the hooks return.
 */
module NavigationGuard {
  import opened Wrappers
  import opened RouteTable

  /** The parts of the target route the hooks read: its name, its `ticketId` parameter and its effective `meta.public`. */
  datatype Target = Target(name: Option<string>, ticketId: Option<string>, public: Option<bool>)

  /** The auth store's flags at one moment. */
  datatype AuthState = AuthState(isLoggedIn: bool, isAgent: bool)

  /** A named in-app location with the `ticketId` parameter carried forward. */
  datatype Location = Location(name: string, ticketId: Option<string>)

  datatype Outcome =
    | ExternalRedirect(href: string)  // the browser leaves the app; `next` is not called
    | Redirect(to: Location)          // `next` called with another route
    | Proceed                         // `next` called with no argument

  /** What one run of the pre-navigation hook decides. */
  datatype Decision = Decision(customerPortal: Option<bool>, initCalled: bool, outcome: Outcome)

  /** The hook's observable actions, in the order the hook performs them. */
  datatype Effect =
    | SetCustomerPortal(value: Option<bool>)
    | CallInit
    | AssignLocation(href: string)
    | CallNext(redirect: Option<Location>)

  /** JavaScript truthiness of an optional boolean: only `true` is truthy. */
  predicate Truthy(b: Option<bool>) {
    b == Some(true)
  }

  /** The auth flags the hook's checks see: the refreshed ones when a refresh ran, the entry ones otherwise. */
  function StateAfterInit(atEntry: AuthState, refreshed: AuthState): AuthState {
    if atEntry.isLoggedIn then refreshed else atEntry
  }

  /** The redirect decision once the session has been settled. */
  function Decide(to: Target, s: AuthState): (o: Outcome)
    ensures !s.isLoggedIn <==> o == ExternalRedirect(LoginPage)
    ensures o.Redirect? <==> s.isLoggedIn && to.name == Some(AgentPortalTicket) && !s.isAgent
    ensures o.Redirect? ==> o.to == Location(CustomerPortalTicket, to.ticketId)
    ensures o.Proceed? <==> s.isLoggedIn && (s.isAgent || to.name != Some(AgentPortalTicket))
  {
    if !s.isLoggedIn then ExternalRedirect(LoginPage)
    else if to.name == Some("TicketAgent") && !s.isAgent then
      Redirect(Location("TicketCustomer", to.ticketId))
    else Proceed
  }

  /**
   * The pre-navigation hook: the customer-portal flag takes the target's
   * `meta.public`, the session is refreshed when logged in at entry, and the
   * checks read the flags after that refresh.
   */
  function BeforeEach(to: Target, atEntry: AuthState, refreshed: AuthState): (d: Decision)
    ensures d.customerPortal == to.public
    ensures d.initCalled <==> atEntry.isLoggedIn
    ensures !atEntry.isLoggedIn ==> d.outcome == ExternalRedirect(LoginPage)
    ensures atEntry.isLoggedIn ==>
      (d.outcome == ExternalRedirect(LoginPage) <==> !refreshed.isLoggedIn)
    ensures d.outcome.Redirect? <==>
      atEntry.isLoggedIn && refreshed.isLoggedIn && !refreshed.isAgent && to.name == Some(AgentPortalTicket)
    ensures d.outcome.Redirect? ==> d.outcome.to == Location(CustomerPortalTicket, to.ticketId)
    ensures d.outcome.Proceed? <==>
      atEntry.isLoggedIn && refreshed.isLoggedIn && (refreshed.isAgent || to.name != Some(AgentPortalTicket))
    ensures d.outcome.ExternalRedirect? ==> d.outcome.href == LoginPage
  {
    Decision(to.public, atEntry.isLoggedIn, Decide(to, StateAfterInit(atEntry, refreshed)))
  }

  /** The terminal action that carries out an outcome. */
  function Terminal(o: Outcome): (e: Effect)
    ensures e.AssignLocation? || e.CallNext?
    ensures e.AssignLocation? <==> o.ExternalRedirect?
    ensures e.CallNext? ==> (e.redirect.Some? <==> o.Redirect?)
  {
    match o
    case ExternalRedirect(href) => AssignLocation(href)
    case Redirect(loc) => CallNext(Some(loc))
    case Proceed => CallNext(None)
  }

  /** The hook's actions in statement order. */
  function BeforeEachEffects(to: Target, atEntry: AuthState, refreshed: AuthState): (es: seq<Effect>)
    ensures |es| == (if atEntry.isLoggedIn then 3 else 2)
    ensures es[0] == SetCustomerPortal(to.public)
    ensures CallInit in es <==> atEntry.isLoggedIn
    ensures CallInit in es ==> es[1] == CallInit
    ensures forall k :: 0 <= k < |es| - 1 ==> !es[k].CallNext? && !es[k].AssignLocation?
    ensures es[|es| - 1].CallNext? || es[|es| - 1].AssignLocation?
  {
    [SetCustomerPortal(to.public)]
    + (if atEntry.isLoggedIn then [CallInit] else [])
    + [Terminal(Decide(to, StateAfterInit(atEntry, refreshed)))]
  }

  /** Reads a decision back off an action trace. */
  function Summarize(es: seq<Effect>): Option<Decision> {
    if |es| < 2 || !es[0].SetCustomerPortal? then None
    else
      var last := es[|es| - 1];
      var outcome :=
        match last
        case AssignLocation(href) => Some(ExternalRedirect(href))
        case CallNext(Some(loc)) => Some(Redirect(loc))
        case CallNext(None) => Some(Proceed)
        case _ => None;
      if outcome.None? then None
      else Some(Decision(es[0].value, CallInit in es, outcome.value))
  }

  /** The decision is exactly what the action trace performs. */
  lemma EffectsCarryOutDecision(to: Target, atEntry: AuthState, refreshed: AuthState)
    ensures Summarize(BeforeEachEffects(to, atEntry, refreshed)) == Some(BeforeEach(to, atEntry, refreshed))
  {
  }

  /** Once no session is left, the outcome is the same login redirect whatever the target. */
  lemma LoginRedirectIgnoresTarget(t1: Target, t2: Target, atEntry: AuthState, refreshed: AuthState)
    requires !StateAfterInit(atEntry, refreshed).isLoggedIn
    ensures BeforeEach(t1, atEntry, refreshed).outcome == ExternalRedirect("/login?redirect-to=/helpdesk")
    ensures BeforeEach(t1, atEntry, refreshed).outcome == BeforeEach(t2, atEntry, refreshed).outcome
    ensures forall e :: e in BeforeEachEffects(t1, atEntry, refreshed) ==> !e.CallNext?
  {
  }

  /** The login check wins over the agent check: a stale session is never redirected in-app. */
  lemma LoginCheckPrecedesAgentCheck(to: Target, atEntry: AuthState, refreshed: AuthState)
    requires atEntry.isLoggedIn && atEntry.isAgent
    requires !refreshed.isLoggedIn
    ensures BeforeEach(to, atEntry, refreshed).initCalled
    ensures BeforeEach(to, atEntry, refreshed).outcome == ExternalRedirect(LoginPage)
  {
  }

  /** The portal flag never influences where navigation goes. */
  lemma OutcomeIgnoresPublicFlag(to: Target, p: Option<bool>, atEntry: AuthState, refreshed: AuthState)
    ensures BeforeEach(to, atEntry, refreshed).outcome == BeforeEach(to.(public := p), atEntry, refreshed).outcome
  {
  }

  /** A redirect sends the user to the one record of that name, in the public portal, which takes the forwarded parameter. */
  lemma RedirectTargetResolves(to: Target, atEntry: AuthState, refreshed: AuthState)
    requires BeforeEach(to, atEntry, refreshed).outcome.Redirect?
    ensures var loc := BeforeEach(to, atEntry, refreshed).outcome.to;
      && NamedAt(Routes, loc.name, 5)
      && EnclosingPrecedes(Routes) && Within(Routes, 5, 1) && Truthy(Routes[1].meta.public)
      && DeclaresParam(Routes[5].path, "ticketId")
      && loc.ticketId == to.ticketId
  {
    TicketRoutesNamed();
    CustomerPortalPlacement();
    TicketRoutesDeclareTicketId();
  }

  /** Looking the redirect's route name up in the table finds the TicketCustomer record. */
  lemma RedirectLookupFindsTicketCustomer(to: Target, atEntry: AuthState, refreshed: AuthState)
    requires BeforeEach(to, atEntry, refreshed).outcome.Redirect?
    ensures FindRoute(Routes, BeforeEach(to, atEntry, refreshed).outcome.to.name) == Some(5)
  {
    RedirectTargetResolves(to, atEntry, refreshed);
    FindRouteNamedAt(Routes, CustomerPortalTicket, 5);
  }

  /** Following the redirect with an unchanged session proceeds: there is no redirect loop. */
  lemma RedirectSettles(to: Target, atEntry: AuthState, refreshed: AuthState, p: Option<bool>)
    requires BeforeEach(to, atEntry, refreshed).outcome.Redirect?
    ensures var loc := BeforeEach(to, atEntry, refreshed).outcome.to;
      BeforeEach(Target(Some(loc.name), loc.ticketId, p), refreshed, refreshed).outcome == Proceed
  {
  }

  /** The post-navigation hook: whether the user list is fetched. */
  function AfterEach(to: Target): (fetch: bool)
    ensures fetch <==> (to.public == None || to.public == Some(false))
  {
    match to.public
    case Some(true) => false
    case _ => true
  }

  /**
   * After a navigation that the pre-navigation hook let through, the user
   * list is fetched exactly when the hook left the customer-portal flag falsy.
   */
  lemma FetchFollowsPortalFlag(to: Target, atEntry: AuthState, refreshed: AuthState)
    requires BeforeEach(to, atEntry, refreshed).outcome.Proceed?
    ensures AfterEach(to) <==> !Truthy(BeforeEach(to, atEntry, refreshed).customerPortal)
  {
  }

  /** The catch-all record sets no `public`, so landing on it fetches; the customer portal root does not. */
  lemma FetchOnTableRoutes(ticketId: Option<string>)
    ensures Routes[21].name == Some(InvalidPage)
    ensures AfterEach(Target(Routes[21].name, ticketId, Routes[21].meta.public))
    ensures AfterEach(Target(Routes[9].name, ticketId, Routes[9].meta.public))
    ensures !AfterEach(Target(Routes[1].name, ticketId, Routes[1].meta.public))
  {
  }
}
