# Helpdesk desk router and email provider catalog

This project models three parts of the helpdesk front end as pure Dafny definitions:

- **The desk router's navigation hooks.** `router.beforeEach` writes the customer-portal flag from the target's `meta.public`. It refreshes the session (`authStore.init()`) when the user is logged in at entry. It then checks the auth flags as they stand after that refresh:
  - logged out: the hook sends the browser to the fixed login location;
  - logged in, not an agent, and headed for `TicketAgent`: the hook redirects to `TicketCustomer` with the same `ticketId`;
  - anything else: navigation proceeds.

  `router.afterEach` fetches the user list unless the target is public. The guard appears twice. `NavigationGuard.BeforeEach` gives the decision it reaches. `NavigationGuard.BeforeEachEffects` gives its actions in statement order. A lemma ties the two together.
- **The route table.** It holds the exported route-name constants and every route record. The records are flattened in declaration order, and each child keeps the index of the record that encloses it. It also covers the `handleMobileView` naming convention that picks `MobileTicketAgent` over `TicketAgent` on a mobile viewport. Lemmas check that route names are unique and that every named reference resolves, except the exported `AGENT_PORTAL_KNOWLEDGE_BASE` constant (see "## Findings").
- **The email-account settings catalog.** It holds the shared fixed fields and the two credential field lists built from them. It also holds the provider presets with their `custom` flags and the partial connection defaults for each provider. Lemmas check that the catalog is internally consistent.

Modules: `Wrappers` (Option), `Sequences` (distinctness, first-match search), `RouteTable`, `NavigationGuard`, `EmailConfig`.

The session refresh is modelled by its result: the auth flags after `init()` are an input (`refreshed`). These flags count only when the refresh actually ran. The viewport is a boolean input.

The login redirect is the fixed string `LOGIN_PAGE` (`/login?redirect-to=/helpdesk`, desk/src/router/index.ts:16). No requested path is appended.

## Model

| member | source | states |
|---|---|---|
| RouteTable.HandleMobileView | desk/src/router/index.ts:180-182 | on a mobile viewport the result is "Mobile" followed by the unchanged name; otherwise it is the name itself |
| RouteTable.SplitViewName | desk/src/router/index.ts:180-182 | reads a component name back as a base name and a mobile flag; the flag is set exactly when the name carries the "Mobile" prefix |
| RouteTable.SplitHandleMobileView | desk/src/router/index.ts:180-182 | round trip: splitting the viewport name recovers the base name and the viewport, for any base name not already starting with "Mobile" |
| RouteTable.HandleMobileViewInjective | desk/src/router/index.ts:180-182 | two distinct (name, viewport) pairs whose base names do not start with "Mobile" never produce the same component name |
| RouteTable.TicketAgentViewNames | desk/src/router/index.ts:125-131 | the agent ticket view is "MobileTicketAgent" on mobile and "TicketAgent" otherwise |
| RouteTable.ViewportMattersOnlyForMobileAware | desk/src/router/index.ts:128-129 | a record's view loads different modules on mobile and desktop exactly when it follows the `handleMobileView` convention; a fixed module and a view-less record load the same thing on both |
| RouteTable.ViewportMattersOnlyForTicketAgent | desk/src/router/index.ts:30-178 | across the whole table, the mobile and desktop modules differ for the TicketAgent record and for no other record |
| RouteTable.OnlyTicketAgentIsMobileAware | desk/src/router/index.ts:30-178 | the TicketAgent record is the only one whose view depends on the viewport |
| RouteTable.TicketAgentModules | desk/src/router/index.ts:125-131 | the TicketAgent record loads `@/pages/ticket/` + `MobileTicketAgent` + `.vue` on mobile, and `@/pages/ticket/` + `TicketAgent` + `.vue` otherwise |
| RouteTable.RouteNamesUnique | desk/src/router/index.ts:30-178 | no two route records declare the same name |
| RouteTable.RoutesEnclosingPrecedes | desk/src/router/index.ts:30-178 | every nested record's enclosing record comes earlier in the flattened table |
| RouteTable.HintCarriers | desk/src/router/index.ts:56-124 | only the two new-ticket records carry `onSuccessRoute` or `parent` hints |
| RouteTable.RoutesMetaReferencesResolve | desk/src/router/index.ts:56-124 | every `onSuccessRoute` and `parent` hint (TicketCustomer, TicketsCustomer, TicketAgent, TicketsAgent) names a record of the table |
| RouteTable.RoutesWellFormed | desk/src/router/index.ts:30-178 | the table has unique names, ordered nesting and resolving hints |
| RouteTable.NameConstantsResolve | desk/src/router/index.ts:8-15 | the contact-list, customer-list, ticket, ticket-list and landing constants, and the guard's redirect target, all name records |
| RouteTable.KnowledgeBaseConstantDangles | desk/src/router/index.ts:12 | no record is named "DeskKBHome", the value of the exported knowledge-base constant |
| RouteTable.KnowledgeBaseRouteConstantResolves | desk/src/router/index.ts:132-137 | the corrected knowledge-base constant names a record, and that record is the only one with the name, the agent knowledge-base record at path "kb" |
| RouteTable.FindRoute | desk/src/router/index.ts:30-178 | a lookup by name returns a record carrying that name, and misses exactly when no record declares it |
| RouteTable.FindRouteNamedAt | desk/src/router/index.ts:30-178 | when exactly one record carries a name, looking the name up finds that record |
| RouteTable.UniqueNamesNamedAt | desk/src/router/index.ts:30-178 | in a table with unique names, each named record is the only one carrying its name |
| RouteTable.TicketRoutesNamed | desk/src/router/index.ts:65-131 | TicketCustomer is carried by one record only, and so is TicketAgent |
| RouteTable.CustomerPortalPlacement | desk/src/router/index.ts:36-92 | TicketCustomer is a child of the `my-tickets` record, which is a child of CustomerRoot, whose meta sets `public: true` |
| RouteTable.AgentPortalPlacement | desk/src/router/index.ts:94-171 | TicketAgent and the agent knowledge base are nested in AgentRoot, whose meta sets `agent: true` and `public: false` |
| RouteTable.TicketRoutesDeclareTicketId | desk/src/router/index.ts:66-126 | both ticket records declare the `:ticketId` parameter, and in both paths it is the last segment, ending at the end of the path |
| NavigationGuard.Decide | desk/src/router/index.ts:196-206 | logged out: exactly the login redirect. Logged-in non-agent on TicketAgent: exactly the redirect to TicketCustomer with the same ticketId. Otherwise: proceed |
| NavigationGuard.BeforeEach | desk/src/router/index.ts:189-207 | the portal flag equals the target's `meta.public`; init runs if and only if the user is logged in at entry; a stale session (logged in at entry, out after init) gets the login redirect; the in-app redirect happens exactly for a logged-in non-agent targeting TicketAgent and goes to TicketCustomer with the same ticketId; navigation proceeds exactly when the session survives and the user is an agent or the target is not TicketAgent; every external redirect goes to `LOGIN_PAGE` |
| NavigationGuard.Terminal | desk/src/router/index.ts:196-206 | every outcome ends in exactly one of assigning the location or calling `next`; the location is assigned exactly for the login redirect, so both in-app outcomes call `next`, with an argument exactly for the in-app redirect |
| NavigationGuard.BeforeEachEffects | desk/src/router/index.ts:189-207 | the trace has exactly the hook's statements: the flag write first, then init exactly when logged in at entry, then one terminal action; the last action, and only the last, assigns the location or calls `next` |
| NavigationGuard.EffectsCarryOutDecision | desk/src/router/index.ts:189-207 | reading the action trace back gives exactly the hook's decision |
| NavigationGuard.LoginRedirectIgnoresTarget | desk/src/router/index.ts:196-197 | with no session left after the refresh, every target gets the same redirect to "/login?redirect-to=/helpdesk", and `next` is never called, neither to proceed nor to redirect |
| NavigationGuard.LoginCheckPrecedesAgentCheck | desk/src/router/index.ts:192-198 | an agent whose session dies during init still has init called and still gets the login redirect |
| NavigationGuard.OutcomeIgnoresPublicFlag | desk/src/router/index.ts:191-206 | the target's `meta.public` never changes the navigation outcome |
| NavigationGuard.RedirectTargetResolves | desk/src/router/index.ts:198-203 | an in-app redirect names the TicketCustomer record. That record lies in the public portal, declares `:ticketId`, and receives the original ticketId |
| NavigationGuard.RedirectLookupFindsTicketCustomer | desk/src/router/index.ts:198-203 | looking the in-app redirect's route name up in the table finds the TicketCustomer record (record 5) |
| NavigationGuard.RedirectSettles | desk/src/router/index.ts:198-205 | following the redirect with the same session proceeds, so there is no redirect loop |
| NavigationGuard.AfterEach | desk/src/router/index.ts:209-213 | the user list is fetched exactly when `meta.public` is not `true`; undefined counts as not public |
| NavigationGuard.FetchFollowsPortalFlag | desk/src/router/index.ts:191-213 | after a navigation the pre-navigation hook let through, the fetch happens exactly when that hook left the portal flag falsy |
| NavigationGuard.FetchOnTableRoutes | desk/src/router/index.ts:173-177 | the catch-all "Invalid Page" record (no meta) and AgentRoot trigger the fetch; CustomerRoot does not |
| EmailConfig.FixedFieldsShape | desk/src/components/Settings/emailConfig.ts:9-22 | the fixed fields are `email_account_name` (text) then `email_id` (email) |
| EmailConfig.PopularProviderFieldsShape | desk/src/components/Settings/emailConfig.ts:24-32 | the password form is the fixed fields followed by exactly one `password` field of type password |
| EmailConfig.CustomProviderFieldsShape | desk/src/components/Settings/emailConfig.ts:34-48 | the API form is the fixed fields followed by `api_key` (text) and then `api_secret` (password) |
| EmailConfig.FieldNamesDistinct | desk/src/components/Settings/emailConfig.ts:9-48 | field names are pairwise distinct within each field list |
| EmailConfig.ServicesShape | desk/src/components/Settings/emailConfig.ts:50-106 | service names are pairwise distinct, and FrappeMail is the only service with `custom` set |
| EmailConfig.DefaultsCoverPasswordProviders | desk/src/components/Settings/emailConfig.ts:50-138 | a service has defaults exactly when it is not custom; every defaults key is a service; FrappeMail has none |
| EmailConfig.SendgridAndSparkPostDefaults | desk/src/components/Settings/emailConfig.ts:119-125 | Sendgrid has exactly smtp_server "smtp.sendgrid.net" and smtp_port 587, with no incoming server and no ssl flag; SparkPost has only smtp_server |
| EmailConfig.SslComesWithIncomingServer | desk/src/components/Settings/emailConfig.ts:108-138 | wherever `use_ssl` is present it is 1, and an `email_server` is present too |
| EmailConfig.FindService | desk/src/components/Settings/emailConfig.ts:50-106 | a lookup returns a listed service with the requested name, and misses exactly when no service has that name |
| EmailConfig.FindServiceExact | desk/src/components/Settings/emailConfig.ts:50-106 | looking up a listed service's own name returns that service |
| EmailConfig.DefaultsFor | desk/src/components/Settings/emailConfig.ts:108-138 | the defaults lookup hits exactly the catalog's password-form services (listed, and not custom), and returns their entry |
| EmailConfig.CredentialFields | desk/src/components/Settings/emailConfig.ts:24-48 | a custom service gets the fixed fields plus api_key (text) and api_secret (password); any other service gets the fixed fields plus password (password) |
| EmailConfig.ServiceForms | desk/src/components/Settings/emailConfig.ts:24-106 | every listed provider gets the API field list exactly when it is FrappeMail, and the password field list otherwise |
| EmailConfig.ProviderForms | desk/src/components/Settings/emailConfig.ts:50-65 | GMail is found as a password-form service and gets the password field list; FrappeMail is found as a custom service and gets the API field list |

## Left out

- Path matching in vue-router is left out because it belongs to the routing library: `:param?` handling, the catch-all pattern, `createWebHistory("/helpdesk/")`, and forwarding params as props. Paths are kept as the strings written in each record.
- The route meta that vue-router merges from parent and child records is left out. The guard takes the target's effective `meta.public` as an input.
- Lazy `import()` of page components is left out because it is bundler behaviour. Only the module path string that would be imported is modelled (`RouteTable.ResolveView`).
- `window.location.href` assignment and the `next` callback are browser and library side effects. They appear as outcome values and as an action trace.
- `authStore.init()` and `userStore.users.fetch()` are asynchronous calls into stores that are not part of this model. The refresh is an oracle input, the auth flags after it, and the fetch is a returned boolean. A refresh that throws is not modelled.
- The `async`/`await` suspension is left out. The hooks are modelled as sequential functions, so there is no interleaving between navigations.
- `useScreenSize` reactivity is left out. `isMobileView` is a boolean input, read at the time the view is resolved.
- Provider icons, help text and help links are display-only and are not modelled.
- The `ticketId` parameter (`to.params.ticketId`) is taken to be a single optional string. The repeated-parameter array form is not modelled, because neither ticket route declares a repeatable parameter.
- EmailConfig.CredentialFields: the settings form that makes this choice from the `custom` flag is not part of this model. The function states the choice the `custom` flag encodes.
- EmailConfig.FindService and EmailConfig.DefaultsFor: the code that looks a preset up is the settings form, which is not part of this model. These lookups express how the catalog can be queried.

## Findings

| source | as written | input that shows it | evidently intended | confidence | as-written member | corrected member |
|---|---|---|---|---|---|---|
| desk/src/router/index.ts:12 | the exported `AGENT_PORTAL_KNOWLEDGE_BASE` is "DeskKBHome" | the constant itself: no record of the table (lines 30-178) has that name, so a named navigation to it cannot resolve | the name of the agent knowledge-base record, "AgentKnowledgeBase" (line 134) | low; not executed, and the callers that use the constant are not part of this model | RouteTable.KnowledgeBaseConstantDangles | RouteTable.KnowledgeBaseRouteConstantResolves |
