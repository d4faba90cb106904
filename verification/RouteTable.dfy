/**
 * The helpdesk desk's route table: the exported route-name constants, the
 * route records (flattened in declaration order, each child pointing at the
 * record that encloses it), and the viewport-dependent view naming used by
 * the agent ticket view.
 */
module RouteTable {
  import opened Wrappers
  import opened Sequences

  // Exported route-name constants and the login location.
  const AgentPortalContactList: string := "ContactList"
  const AgentPortalCustomerList: string := "CustomerList"
  const AgentPortalTicket: string := "TicketAgent"
  const AgentPortalTicketList: string := "TicketsAgent"
  const AgentPortalKnowledgeBase: string := "DeskKBHome"
  const CustomerPortalLanding: string := "TicketsCustomer"
  const AgentPortalLanding: string := AgentPortalTicketList
  const LoginPage: string := "/login?redirect-to=/helpdesk"

  /** The name the knowledge-base constant evidently means: the agent knowledge-base record's own name. */
  const AgentPortalKnowledgeBaseRoute: string := "AgentKnowledgeBase"

  /** The route the guard sends non-agents to instead of the agent ticket view. */
  const CustomerPortalTicket: string := "TicketCustomer"

  /** The name of the catch-all route that takes every unmatched path. */
  const InvalidPage: string := "Invalid Page"

  /** The typed `meta` fields of a route record; None is a field the record leaves out. */
  datatype Meta = Meta(
    auth: Option<bool>,
    agent: Option<bool>,
    admin: Option<bool>,
    public: Option<bool>,
    onSuccessRoute: Option<string>,
    parent: Option<string>)

  const NoMeta: Meta := Meta(None, None, None, None, None, None)

  /** A page module: fixed, or chosen by viewport through the mobile naming convention. */
  datatype View =
    | Page(file: string)
    | MobileAwarePage(directory: string, componentName: string)
    | NoView

  /**
   * One route record. `path` is the record's own segment as written;
   * `enclosing` is the index, in the flat table, of the record whose
   * `children` list holds this one.
   */
  datatype Route = Route(
    name: Option<string>,
    path: string,
    enclosing: Option<nat>,
    view: View,
    props: bool,
    meta: Meta)

  const MobilePrefix: string := "Mobile"

  predicate HasMobilePrefix(s: string) {
    |MobilePrefix| <= |s| && s[..|MobilePrefix|] == MobilePrefix
  }

  /**
   * The component name for the current viewport: the "Mobile"-prefixed
   * variant on a mobile viewport, the name itself otherwise.
   */
  function HandleMobileView(componentName: string, isMobileView: bool): (r: string)
    ensures !isMobileView ==> r == componentName
    ensures isMobileView ==> HasMobilePrefix(r) && r[|MobilePrefix|..] == componentName
    ensures |r| == |componentName| + (if isMobileView then |MobilePrefix| else 0)
  {
    if isMobileView then MobilePrefix + componentName else componentName
  }

  /**
   * Reads a component name back as (base name, mobile?): the inverse of
   * HandleMobileView on names that do not themselves start with "Mobile".
   */
  function SplitViewName(v: string): (r: (string, bool))
    ensures r.1 <==> HasMobilePrefix(v)
    ensures r.1 ==> v == MobilePrefix + r.0
    ensures !r.1 ==> v == r.0
  {
    if HasMobilePrefix(v) then (v[|MobilePrefix|..], true) else (v, false)
  }

  lemma {:induction false} SplitHandleMobileView(componentName: string, isMobileView: bool)
    requires !HasMobilePrefix(componentName)
    ensures SplitViewName(HandleMobileView(componentName, isMobileView)) == (componentName, isMobileView)
  {
    var v := HandleMobileView(componentName, isMobileView);
    if isMobileView {
      assert HasMobilePrefix(v);
      assert v[|MobilePrefix|..] == componentName;
    } else {
      assert v == componentName;
    }
  }

  /** Two base names that do not start with "Mobile" never produce the same component name. */
  lemma HandleMobileViewInjective(a: string, ma: bool, b: string, mb: bool)
    requires !HasMobilePrefix(a) && !HasMobilePrefix(b)
    requires HandleMobileView(a, ma) == HandleMobileView(b, mb)
    ensures a == b && ma == mb
  {
    SplitHandleMobileView(a, ma);
    SplitHandleMobileView(b, mb);
  }

  lemma TicketAgentViewNames()
    ensures HandleMobileView(AgentPortalTicket, true) == "MobileTicketAgent"
    ensures HandleMobileView(AgentPortalTicket, false) == "TicketAgent"
  {
  }

  /** The module a record's view is loaded from, evaluated for the current viewport. */
  function ResolveView(view: View, isMobileView: bool): Option<string> {
    match view
    case Page(m) => Some(m)
    case MobileAwarePage(d, c) => Some(d + HandleMobileView(c, isMobileView) + ".vue")
    case NoView => None
  }

  /** The route records in declaration order (parents before their children). */
  const Routes: seq<Route> := [
    /* 0 */ Route(None, "", None, Page("@/pages/HRoot.vue"), false, NoMeta),
    // Customer portal
    /* 1 */ Route(Some("CustomerRoot"), "", None, Page("@/pages/CustomerPortalRoot.vue"), false,
                  Meta(Some(true), None, None, Some(true), None, None)),
    /* 2 */ Route(None, "my-tickets", Some(1), NoView, false, NoMeta),
    /* 3 */ Route(Some("TicketsCustomer"), "", Some(2), Page("@/pages/ticket/Tickets.vue"), false, NoMeta),
    /* 4 */ Route(Some("TicketNew"), "new/:templateId?", Some(2), Page("@/pages/ticket/TicketNew.vue"), true,
                  Meta(None, None, None, None, Some("TicketCustomer"), Some("TicketsCustomer"))),
    /* 5 */ Route(Some("TicketCustomer"), ":ticketId", Some(2), Page("@/pages/ticket/TicketCustomer.vue"), true, NoMeta),
    /* 6 */ Route(Some("CustomerKnowledgeBase"), "kb-public", Some(1),
                  Page("@/pages/knowledge-base/KnowledgeBaseCustomer.vue"), false, NoMeta),
    /* 7 */ Route(Some("Articles"), "kb-public/:categoryId", Some(1),
                  Page("@/pages/knowledge-base/Articles.vue"), true, NoMeta),
    /* 8 */ Route(Some("ArticlePublic"), "kb-public/articles/:articleId", Some(1),
                  Page("@/pages/knowledge-base/Article.vue"), true, NoMeta),
    // Agent portal
    /* 9 */ Route(Some("AgentRoot"), "", None, Page("@/pages/desk/AgentRoot.vue"), false,
                  Meta(Some(true), Some(true), Some(false), Some(false), None, None)),
    /* 10 */ Route(Some(AgentPortalTicketList), "tickets", Some(9), Page("@/pages/ticket/Tickets.vue"), false, NoMeta),
    /* 11 */ Route(Some("Notifications"), "notifications", Some(9), Page("@/pages/MobileNotifications.vue"), false, NoMeta),
    /* 12 */ Route(Some("TicketAgentNew"), "tickets/new/:templateId?", Some(9), Page("@/pages/ticket/TicketNew.vue"), true,
                   Meta(None, None, None, None, Some("TicketAgent"), Some("TicketsAgent"))),
    /* 13 */ Route(Some("TicketAgent"), "tickets/:ticketId", Some(9),
                   MobileAwarePage("@/pages/ticket/", "TicketAgent"), true, NoMeta),
    /* 14 */ Route(Some("AgentKnowledgeBase"), "kb", Some(9),
                   Page("@/pages/knowledge-base/KnowledgeBaseAgent.vue"), false, NoMeta),
    /* 15 */ Route(Some("Article"), "kb/articles/:articleId", Some(9), Page("@/pages/knowledge-base/Article.vue"), true, NoMeta),
    /* 16 */ Route(Some("NewArticle"), "articles/new/:id", Some(9), Page("@/pages/knowledge-base/NewArticle.vue"), true, NoMeta),
    /* 17 */ Route(Some(AgentPortalCustomerList), "customers", Some(9), Page("@/pages/desk/customer/Customers.vue"), false, NoMeta),
    /* 18 */ Route(Some(AgentPortalContactList), "contacts", Some(9), Page("@/pages/desk/contact/Contacts.vue"), false, NoMeta),
    /* 19 */ Route(Some("CannedResponses"), "canned-responses", Some(9), Page("@/pages/CannedResponses.vue"), false, NoMeta),
    /* 20 */ Route(Some("Dashboard"), "dashboard", Some(9), Page("@/pages/dashboard/Dashboard.vue"), false, NoMeta),
    // Catch-all
    /* 21 */ Route(Some(InvalidPage), "/:pathMatch(.*)*", None, Page("@/pages/InvalidPage.vue"), false, NoMeta)
  ]

  /** Every name some record declares. */
  function RouteNames(routes: seq<Route>): set<string> {
    set i | 0 <= i < |routes| && routes[i].name.Some? :: routes[i].name.value
  }

  /** No two records declare the same name. */
  predicate NamesUnique(routes: seq<Route>) {
    forall i, j :: 0 <= i < j < |routes| && routes[i].name.Some? ==> routes[i].name != routes[j].name
  }

  /** Every record's enclosing record comes earlier in the table. */
  predicate EnclosingPrecedes(routes: seq<Route>) {
    forall i :: 0 <= i < |routes| && routes[i].enclosing.Some? ==> routes[i].enclosing.value < i
  }

  /** Every `onSuccessRoute` and `parent` hint names a record of the table. */
  predicate MetaReferencesResolve(routes: seq<Route>) {
    forall i :: 0 <= i < |routes| ==>
      (routes[i].meta.onSuccessRoute.Some? ==> routes[i].meta.onSuccessRoute.value in RouteNames(routes)) &&
      (routes[i].meta.parent.Some? ==> routes[i].meta.parent.value in RouteNames(routes))
  }

  predicate WellFormed(routes: seq<Route>) {
    NamesUnique(routes) && EnclosingPrecedes(routes) && MetaReferencesResolve(routes)
  }

  /** The position of the record named `name`. */
  function FindRoute(routes: seq<Route>, name: string): (r: Option<nat>)
    ensures r.Some? ==> r.value < |routes| && routes[r.value].name == Some(name)
    ensures r.None? <==> name !in RouteNames(routes)
  {
    var found := FindFirst(routes, (x: Route) => x.name == Some(name));
    if found.None? then
      assert forall x :: x in routes ==> x.name != Some(name);
      found
    else
      found
  }

  /** Record `k` is the one and only record named `name`. */
  predicate NamedAt(routes: seq<Route>, name: string, k: nat) {
    k < |routes| && routes[k].name == Some(name) &&
    forall i :: 0 <= i < |routes| && routes[i].name == Some(name) ==> i == k
  }

  /** Looking a name up finds the record that alone carries it. */
  lemma FindRouteNamedAt(routes: seq<Route>, name: string, k: nat)
    requires NamedAt(routes, name, k)
    ensures FindRoute(routes, name) == Some(k)
  {
    FindFirstUnique(routes, (x: Route) => x.name == Some(name), k);
  }

  /** In a table with unique names, every named record is the only one with its name. */
  lemma UniqueNamesNamedAt(routes: seq<Route>, k: nat)
    requires NamesUnique(routes)
    requires k < |routes| && routes[k].name.Some?
    ensures NamedAt(routes, routes[k].name.value, k)
  {
  }

  /**
   * Whether record `i` is `root` or nested (through `enclosing` links) inside it.
   */
  predicate Within(routes: seq<Route>, i: nat, root: nat)
    requires EnclosingPrecedes(routes)
    decreases i
  {
    i < |routes| &&
    (i == root ||
     (routes[i].enclosing.Some? && Within(routes, routes[i].enclosing.value, root)))
  }

  /**
   * `path` holds `:param` starting at position `k`, and the parameter name
   * ends there: at the end of the path, or before a `/` or an optional-marker `?`.
   */
  predicate ParamAt(path: string, param: string, k: nat) {
    var end := k + |param| + 1;
    end <= |path| && path[k..end] == ":" + param &&
    (end == |path| || path[end] == '/' || path[end] == '?')
  }

  /** `path` declares the route parameter `param`. */
  predicate DeclaresParam(path: string, param: string) {
    exists k: nat | k < |path| :: ParamAt(path, param, k)
  }

  /**
   * The table's names, record by record. It exists only to make the
   * uniqueness proof cheaper: the pairwise check runs over plain values
   * instead of whole records.
   */
  ghost const NameColumn: seq<Option<string>> := [
    None, Some("CustomerRoot"), None, Some("TicketsCustomer"), Some("TicketNew"),
    Some("TicketCustomer"), Some("CustomerKnowledgeBase"), Some("Articles"), Some("ArticlePublic"), Some("AgentRoot"),
    Some("TicketsAgent"), Some("Notifications"), Some("TicketAgentNew"), Some("TicketAgent"), Some("AgentKnowledgeBase"),
    Some("Article"), Some("NewArticle"), Some("CustomerList"), Some("ContactList"), Some("CannedResponses"),
    Some("Dashboard"), Some("Invalid Page")]

  lemma NameColumnMatchesRoutes()
    ensures |NameColumn| == |Routes|
    ensures forall i :: 0 <= i < |Routes| ==> Routes[i].name == NameColumn[i]
  {
  }

  lemma NameColumnDistinct()
    ensures forall i, j :: 0 <= i < j < |NameColumn| && NameColumn[i].Some? ==> NameColumn[i] != NameColumn[j]
  {
  }

  lemma RouteNamesUnique()
    ensures NamesUnique(Routes)
  {
    NameColumnMatchesRoutes();
    NameColumnDistinct();
  }

  lemma RoutesEnclosingPrecedes()
    ensures EnclosingPrecedes(Routes)
  {
  }

  /** Only the two new-ticket records carry `onSuccessRoute`/`parent` hints. */
  lemma HintCarriers()
    ensures forall i :: 0 <= i < |Routes| && (Routes[i].meta.onSuccessRoute.Some? || Routes[i].meta.parent.Some?) ==>
      i == 4 || i == 12
  {
  }

  lemma RoutesMetaReferencesResolve()
    ensures MetaReferencesResolve(Routes)
  {
    HintCarriers();
    assert Routes[3].name == Some("TicketsCustomer");
    assert Routes[5].name == Some("TicketCustomer");
    assert Routes[10].name == Some("TicketsAgent");
    assert Routes[13].name == Some("TicketAgent");
  }

  lemma RoutesWellFormed()
    ensures WellFormed(Routes)
  {
    RouteNamesUnique();
    RoutesEnclosingPrecedes();
    RoutesMetaReferencesResolve();
  }

  /** Route-name constants that name a record of the table. */
  lemma NameConstantsResolve()
    ensures AgentPortalContactList in RouteNames(Routes)
    ensures AgentPortalCustomerList in RouteNames(Routes)
    ensures AgentPortalTicket in RouteNames(Routes)
    ensures AgentPortalTicketList in RouteNames(Routes)
    ensures CustomerPortalLanding in RouteNames(Routes)
    ensures AgentPortalLanding in RouteNames(Routes)
    ensures CustomerPortalTicket in RouteNames(Routes)
  {
    assert Routes[18].name == Some(AgentPortalContactList);
    assert Routes[17].name == Some(AgentPortalCustomerList);
    assert Routes[13].name == Some(AgentPortalTicket);
    assert Routes[10].name == Some(AgentPortalTicketList);
    assert Routes[3].name == Some(CustomerPortalLanding);
    assert Routes[5].name == Some(CustomerPortalTicket);
  }

  /** The one exported constant that names no record: no route is called "DeskKBHome". */
  lemma KnowledgeBaseConstantDangles()
    ensures AgentPortalKnowledgeBase !in RouteNames(Routes)
  {
  }

  /** The corrected knowledge-base constant names the agent knowledge-base record. */
  lemma KnowledgeBaseRouteConstantResolves()
    ensures AgentPortalKnowledgeBaseRoute in RouteNames(Routes)
    ensures NamedAt(Routes, AgentPortalKnowledgeBaseRoute, 14)
    ensures Routes[14].path == "kb"
  {
    RouteNamesUnique();
    UniqueNamesNamedAt(Routes, 14);
  }

  /** Each ticket view is the only record carrying its name. */
  lemma TicketRoutesNamed()
    ensures NamedAt(Routes, CustomerPortalTicket, 5)
    ensures NamedAt(Routes, AgentPortalTicket, 13)
  {
    RouteNamesUnique();
    UniqueNamesNamedAt(Routes, 5);
    UniqueNamesNamedAt(Routes, 13);
  }

  /** The customer ticket view sits in the customer portal, whose root is public. */
  lemma CustomerPortalPlacement()
    ensures EnclosingPrecedes(Routes)
    ensures Within(Routes, 5, 1) && Routes[1].name == Some("CustomerRoot") && Routes[1].meta.public == Some(true)
    ensures Routes[5].enclosing == Some(2) && Routes[2].path == "my-tickets" && Routes[2].enclosing == Some(1)
  {
    RoutesEnclosingPrecedes();
    assert Within(Routes, 1, 1);
    assert Within(Routes, 2, 1);
  }

  /** The agent ticket and knowledge-base views sit in the agent portal, which requires an agent and is not public. */
  lemma AgentPortalPlacement()
    ensures EnclosingPrecedes(Routes)
    ensures Within(Routes, 13, 9) && Within(Routes, 14, 9) && Routes[9].name == Some("AgentRoot")
    ensures Routes[9].meta.public == Some(false) && Routes[9].meta.agent == Some(true)
  {
    RoutesEnclosingPrecedes();
    assert Within(Routes, 9, 9);
  }

  /** Both ticket views take the `ticketId` parameter the guard forwards. */
  lemma TicketRoutesDeclareTicketId()
    ensures DeclaresParam(Routes[5].path, "ticketId")
    ensures DeclaresParam(Routes[13].path, "ticketId")
    ensures ParamAt(Routes[5].path, "ticketId", |Routes[5].path| - |":ticketId"|)
    ensures ParamAt(Routes[13].path, "ticketId", |Routes[13].path| - |":ticketId"|)
  {
    assert ParamAt(Routes[5].path, "ticketId", 0);
    assert ParamAt(Routes[13].path, "ticketId", 8);
  }

  /** Only the agent ticket view depends on the viewport. */
  lemma OnlyTicketAgentIsMobileAware()
    ensures forall i :: 0 <= i < |Routes| && Routes[i].view.MobileAwarePage? ==> i == 13
  {
  }

  /** A view depends on the viewport exactly when it follows the mobile naming convention. */
  lemma {:induction false} ViewportMattersOnlyForMobileAware(view: View)
    ensures ResolveView(view, true) == ResolveView(view, false) <==> !view.MobileAwarePage?
  {
    if view.MobileAwarePage? {
      var mobile := ResolveView(view, true).value;
      var desktop := ResolveView(view, false).value;
      assert |mobile| == |desktop| + |MobilePrefix|;
    }
  }

  /** Of all the records, only the agent ticket view loads a different module on a mobile viewport. */
  lemma ViewportMattersOnlyForTicketAgent()
    ensures forall i :: 0 <= i < |Routes| ==>
      (ResolveView(Routes[i].view, true) == ResolveView(Routes[i].view, false) <==> i != 13)
  {
    OnlyTicketAgentIsMobileAware();
    forall i | 0 <= i < |Routes|
      ensures ResolveView(Routes[i].view, true) == ResolveView(Routes[i].view, false) <==> i != 13
    {
      ViewportMattersOnlyForMobileAware(Routes[i].view);
    }
  }

  /** The agent ticket record's view and the two module paths it resolves to. */
  lemma TicketAgentModules()
    ensures Routes[13].view == MobileAwarePage("@/pages/ticket/", "TicketAgent")
    ensures ResolveView(Routes[13].view, true) == Some("@/pages/ticket/" + "MobileTicketAgent" + ".vue")
    ensures ResolveView(Routes[13].view, false) == Some("@/pages/ticket/" + "TicketAgent" + ".vue")
  {
    TicketAgentViewNames();
  }
}
