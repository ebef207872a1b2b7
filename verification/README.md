# Quantiva dashboard: session, routing, chat and display rules in Dafny

Quantiva is a client-side investment-research dashboard. Almost all of it is presentation;
this project models the parts that carry rules:

- the session store of `AuthProvider` (the signed-in user, the loading flag and the
  `quantiva_user` storage key) with its start-up check, sign-in, sign-up and sign-out;
- the route guard of `AppRoutes`, which alone decides whether protected pages are reachable;
- the AI chat transcript, with its blank-input guard and delayed canned reply;
- the insights page's type filter and colour table;
- the dashboard's classification rules: sentiment colours and labels on the heatmap and the
  watchlist, the up/down and `+` rules for changes, and the chart's range-to-points map.

Every transition is a pure function over immutable datatypes. Numbers are `real`, since only
signs and thresholds matter; colours are tags for colour families, not class strings.

Four behaviours of the code shape the model:

- The start-up check does not fall back to "signed out" on a corrupt record. `JSON.parse` is
  unguarded, so it throws before `setIsLoading(false)`; the model returns `ParseThrew` and the
  loading flag stays up, so the guard shows the spinner for good. An empty stored string is
  skipped as falsy, like an absent key.
- Sign-in and sign-up check neither the e-mail nor the password and have no failure outcome:
  an empty e-mail yields an empty name.
- The insights route mounts a placeholder declared beside the routes; the full insights page
  module is reachable from no route.
- Pressing a chart range button only moves the highlight; the series stays the thirty points
  generated for "1M" at mount.

Modules: `Wrappers` (Option), `JsString` (`split` and `trim`), `Session`, `Routes`, `Chat`,
`Insights`, `Trend` (the shared sign rule), `Heatmap`, `Watchlist`, `StockHeader`, `Chart`.

## Model

| member | source | states |
|---|---|---|
| JsString.Trim | src/pages/AIChat.tsx:24 | the result is a slice of the input with only whitespace removed before and after it, and it neither starts nor ends with whitespace |
| JsString.TrimEmptyIffBlank | src/pages/AIChat.tsx:24 | `!input.trim()` holds exactly when every character of the input is whitespace |
| JsString.Split | src/context/AuthContext.tsx:43 | at least one piece, no piece holds the separator, and the first piece is the prefix up to the first separator |
| JsString.JoinSplit | src/context/AuthContext.tsx:43 | joining the pieces of a split with the separator gives back the original string |
| JsString.SplitJoin | src/context/AuthContext.tsx:43 | separator-free pieces joined with the separator split back into exactly those pieces |
| Session.Restore | src/context/AuthContext.tsx:23-34 | a saved record becomes the user, no key or an empty string leaves the user absent, both end loading; a corrupt record throws and leaves the state, loading flag included, unchanged |
| Session.DisplayName | src/context/AuthContext.tsx:43 | the name is the longest prefix of the e-mail without '@' (the whole e-mail when it has none) |
| Session.DisplayNameUnique | src/context/AuthContext.tsx:43 | any prefix without '@' that ends at an '@' or at the end of the e-mail is the display name |
| Session.DisplayNameExamples | src/context/AuthContext.tsx:43 | "trader@x.com" gives "trader", "noatsign" itself, "a@b@c" gives "a", and "@x.com" and "" give "" |
| Session.Initial | src/context/AuthContext.tsx:20-21 | the provider mounts with no user, the loading flag up and the storage slot as found |
| Session.Begin | src/context/AuthContext.tsx:37 | while the simulated call is outstanding the loading flag is up and user and slot are unchanged |
| Session.SignIn | src/context/AuthContext.tsx:36-50 | the user gets id "1", the e-mail unchanged and the display name; the slot holds that same user; loading is over |
| Session.SignUp | src/context/AuthContext.tsx:52-66 | the user gets id "1" and the given name and e-mail verbatim; the slot holds that same user; loading is over |
| Session.SignOut | src/context/AuthContext.tsx:68-71 | user and slot are cleared and the loading flag is left as it was |
| Session.NoFailurePath | src/context/AuthContext.tsx:36-66 | sign-in and sign-up give the same result whatever the previous state and the password, and an empty e-mail gives an empty name |
| Session.SignOutIdempotent | src/context/AuthContext.tsx:68-71 | signing out twice equals signing out once |
| Session.ApplyAllPreservesHealthy | src/context/AuthContext.tsx:36-71 | any sequence of sign-ins, sign-ups and sign-outs keeps the slot backing the user and, when not loading, memory and slot in agreement |
| Session.RunIsHealthy | src/context/AuthContext.tsx:19-71 | every state reached from mount, whatever the slot held, is healthy |
| Session.RestartReproduces | src/context/AuthContext.tsx:23-34 | reloading a settled session restores it exactly |
| Session.SignInSurvivesReload | src/context/AuthContext.tsx:26-28 | after sign-in, a reload restores the same user with the same display name |
| Session.CorruptSlotStalls | src/context/AuthContext.tsx:27-30 | a non-empty unparseable record leaves the user absent and loading never ends |
| Routes.Guard | src/App.tsx:17-49 | spinner exactly while loading; landing exactly when settled with no user; otherwise the routed page for a known path and a redirect to "/" for any other |
| Routes.ProtectedNeedsUser | src/App.tsx:20-33 | a page or redirect is produced only for a signed-in user after loading |
| Routes.RoutesAreInjective | src/App.tsx:37-45 | no two paths lead to the same page |
| Routes.InsightsHubUnreachable | src/App.tsx:13 | no path shows the full insights page; "/insights" shows the placeholder |
| Routes.SidebarLinksResolve | src/components/Layout/Sidebar.tsx:6-14 | every sidebar link shows a page, never the redirect |
| Routes.SidebarCoversRoutes | src/App.tsx:37-45 | the sidebar links are exactly the routed paths |
| Routes.RedirectReachesDashboard | src/App.tsx:46 | an unknown path redirects to "/", which shows the dashboard, so the redirect cannot loop |
| Routes.MountShowsSpinner | src/App.tsx:20-29 | before the start-up check every path shows the spinner |
| Routes.CorruptSlotShowsSpinner | src/context/AuthContext.tsx:26-30 | with a corrupt record every path keeps showing the spinner |
| Routes.SignOutShowsLanding | src/components/Layout/Header.tsx:15 | signing out of a settled session shows the landing page on every path |
| Routes.StartupDecidedBySlot | src/App.tsx:31-33 | after a start-up check that does not throw, the landing page shows exactly when the slot holds no saved user |
| Chat.Type | src/pages/AIChat.tsx:101 | typing replaces the input and leaves transcript and pending replies alone |
| Chat.Send | src/pages/AIChat.tsx:23-47 | blank input changes nothing; otherwise one user message with the untrimmed input is appended, one reply is scheduled and the input is cleared |
| Chat.ReplyArrives | src/pages/AIChat.tsx:36-44 | a scheduled reply appends one AI message with the canned text at the end and retires one pending reply |
| Chat.InitialIsValid | src/pages/AIChat.tsx:13-21 | the page mounts with the greeting alone, id "1", from the AI, and satisfies the transcript invariant |
| Chat.CountsPartition | src/pages/AIChat.tsx:7 | every message is either the user's or the AI's, so the two counts add up to the transcript's length |
| Chat.StepPreservesValid | src/pages/AIChat.tsx:23-47 | typing, sending and a reply keep the greeting first, user messages non-blank, later AI messages canned, and users = AI replies + pending |
| Chat.StepAppendsOnly | src/pages/AIChat.tsx:33-43 | each event extends the transcript by at most one message and keeps the old one as a prefix |
| Chat.RunKeepsTranscript | src/pages/AIChat.tsx:23-47 | over any run the transcript stays valid and is never shortened or reordered |
| Chat.RepliesNeverOutrunSends | src/pages/AIChat.tsx:33-43 | from mount, AI messages beyond the greeting never outnumber the messages the user sent |
| Chat.BlankInputIgnored | src/pages/AIChat.tsx:24 | sending "" or " \t\n" leaves the page unchanged |
| Insights.Filtered | src/pages/AIInsightsPage.tsx:59 | the result is a subsequence of the list, every element matches the filter, and every matching insight occurs as often as in the list |
| Insights.FilterAllIsIdentity | src/pages/AIInsightsPage.tsx:59 | the `All` filter returns the list unchanged |
| Insights.FilteredLength | src/pages/AIInsightsPage.tsx:59 | a type filter keeps as many insights as have that type |
| Insights.CountsSum | src/pages/AIInsightsPage.tsx:6 | the per-type counts add up to the list's length |
| Insights.TypeViewsPartition | src/pages/AIInsightsPage.tsx:6-59 | the four type views together hold exactly as many insights as the list |
| Insights.FilterKeepsWellFormed | src/pages/AIInsightsPage.tsx:31-32 | a view of well-formed insights (confidence 60 to 98, three key factors) holds only well-formed insights |
| Insights.InitialViewShowsAll | src/pages/AIInsightsPage.tsx:56-57 | on mount the filter is `All` and all twelve generated insights show |
| Insights.Colors | src/pages/AIInsightsPage.tsx:48-53 | each type has one colour family shared by its text, background and border |
| Insights.ColorsInjective | src/pages/AIInsightsPage.tsx:48-53 | different types get different palettes and different bars |
| Insights.BarFor | src/pages/AIInsightsPage.tsx:137 | the bar is green exactly for the success text class, red for danger, yellow for yellow and blue for the primary class |
| Insights.BarMatchesType | src/pages/AIInsightsPage.tsx:137 | the bar is green exactly for bullish, red for bearish, yellow for warning, blue for opportunity |
| Insights.FilterButtonsCoverTypes | src/pages/AIInsightsPage.tsx:88 | the filter buttons are distinct and include one per type |
| Trend.SignedText | src/pages/Watchlist.tsx:87-90 | an amount drawn without an icon is green exactly from zero upwards and red below, with '+' exactly above zero and '-' exactly below |
| Trend.ChangeMarks | src/pages/Watchlist.tsx:76-82 | green and up exactly from zero upwards, red and down below; '+' exactly above zero; '-' exactly below |
| Trend.ChangeMarksOneSign | src/pages/Watchlist.tsx:81 | never both signs, no sign exactly at zero, and zero points up |
| Trend.ChangeMarksMonotone | src/pages/Watchlist.tsx:76-82 | a larger amount is never shown falling or unsigned where a smaller one rises or has '+' |
| Heatmap.SentimentColor | src/components/Dashboard/SentimentHeatmap.tsx:28-32 | green exactly above 0.3, red exactly below -0.3, grey on [-0.3, 0.3] |
| Heatmap.SentimentLabel | src/components/Dashboard/SentimentHeatmap.tsx:34-40 | the five bands: above 0.5, (0.2, 0.5], (-0.2, 0.2], (-0.5, -0.2], at most -0.5 |
| Heatmap.LabelMonotone | src/components/Dashboard/SentimentHeatmap.tsx:34-40 | a higher score never gets a more bearish label |
| Heatmap.ColorAgreesWithLabel | src/components/Dashboard/SentimentHeatmap.tsx:28-40 | very bullish is green, very bearish red, neutral grey; green implies at least bullish; 0.25 is bullish yet grey |
| Heatmap.ChangeCell | src/components/Dashboard/SentimentHeatmap.tsx:72-76 | green and up exactly when the change is at least zero and red below zero, with '+' exactly above zero and '-' exactly below |
| Heatmap.GenerateStockData | src/components/Dashboard/SentimentHeatmap.tsx:13-23 | ten rows, row i pairs the i-th symbol with the i-th name and the i-th draws, and the symbols are distinct |
| Heatmap.SymbolsDistinct | src/components/Dashboard/SentimentHeatmap.tsx:14-15 | ten symbols, ten names, no symbol twice |
| Watchlist.SentimentLabel | src/pages/Watchlist.tsx:96-98 | bullish exactly above 0.2, bearish exactly below -0.2, neutral on [-0.2, 0.2] |
| Watchlist.SentimentDot | src/pages/Watchlist.tsx:93-95 | green exactly above 0.2, red exactly below -0.2 |
| Watchlist.DotAgreesWithLabel | src/pages/Watchlist.tsx:93-98 | the dot's colour is always the label's colour |
| Watchlist.CardOf | src/pages/Watchlist.tsx:76-97 | the change is green and up exactly from zero and red below zero, with '+' exactly above zero and '-' exactly below; the percentage has the same colour and signs by its own value and no icon; the label is the sentiment's label and the dot its colour |
| Watchlist.ZeroChangeShownUnsigned | src/pages/Watchlist.tsx:76-82 | a zero change is green, up and unsigned |
| Watchlist.GenerateWatchlistData | src/pages/Watchlist.tsx:15-31 | six rows in the fixed order RELIANCE to ADANI, row i carrying the i-th symbol and name with the i-th price, change, percentage and sentiment draws, and the symbols are distinct |
| Watchlist.LabelsAgreeExceptAtBoundary | src/pages/Watchlist.tsx:97 | the heatmap's label, collapsed to three steps, equals the watchlist's for every score except exactly -0.2 |
| Watchlist.ColoursAgreeOutsideModerateBands | src/pages/Watchlist.tsx:94 | the heatmap colour and the watchlist dot agree exactly above 0.3, below -0.3 and on [-0.2, 0.2] |
| StockHeader.BadgeOf | src/components/Dashboard/StockHeader.tsx:14-39 | colour, arrow and both '+' follow `change >= 0`; only the printed '-' of the percentage depends on the percentage |
| StockHeader.ChangeSignedExactlyOnce | src/components/Dashboard/StockHeader.tsx:39 | the change always shows exactly one sign, and zero shows '+' |
| StockHeader.PercentSignFollowsChange | src/components/Dashboard/StockHeader.tsx:39 | the percentage's '+' ignores the percentage; "+-" appears exactly for a non-negative change with a negative percentage |
| StockHeader.AgreesWithSharedRule | src/components/Dashboard/StockHeader.tsx:14-39 | colour and arrow match the watchlist rule everywhere, the '+' everywhere but at zero |
| StockHeader.DashboardQuote | src/pages/Dashboard.tsx:11-17 | the dashboard's fixed quote shows green, up and two '+' |
| Chart.Points | src/components/Dashboard/StockChart.tsx:9 | 1D 24, 1W 7, 1M 30, 3M 90, 1Y 365, anything else 1825 |
| Chart.RangeButtonsDistinct | src/components/Dashboard/StockChart.tsx:6-9 | the six buttons get six different counts, "5Y" reaching 1825 by the fallback |
| Chart.GenerateChartData | src/components/Dashboard/StockChart.tsx:8-15 | as many points as the range asks for, one per day ending yesterday, each price the base moved by its draw and within 2300 to 2700 for draws within 200 |
| Chart.Mount | src/components/Dashboard/StockChart.tsx:19-20 | the chart mounts on "1M" with thirty points, one per day from thirty days ago to yesterday, each the base price moved by its draw |
| Chart.Select | src/components/Dashboard/StockChart.tsx:35 | a button press changes the selection and keeps the data |
| Chart.ClicksNeverRegenerate | src/components/Dashboard/StockChart.tsx:20-40 | after any presses the data is the mounted series and the selection is the last button pressed |
| Chart.SeriesOutOfStepWithSelection | src/components/Dashboard/StockChart.tsx:20-40 | the series length matches the selected range only when that range has thirty points; after "1Y" it still has thirty |

## Left out

- Rendering, animation, chart drawing and Tailwind class strings: colours and icons are tags.
- The random data generator: its draws are parameters; the insight generator's ranges are
  stated as the `WellFormed` predicate rather than produced.
- Browser storage and JSON as libraries: the slot is one optional record, and a record that
  `JSON.parse` rejects is a separate constructor. Valid JSON that is not a user record is not
  modelled.
- Timers and asynchrony: the one-second latencies are the gap between `Session.Begin` and the
  completed transition, and between `Chat.Send` and `Chat.ReplyArrives`. Overlapping sign-ins,
  which the code does not prevent, are concurrency and are not modelled.
- The chat page's state is lost when it unmounts; a reply whose timer fires afterwards is not
  modelled.
- Clock-based message ids, timestamps, and the `toFixed`, `toLocaleTimeString` and
  `toISOString` formatting; prices are not rounded to cents.
- Router internals: path matching, trailing slashes, `NavLink` highlighting and history
  replacement. Paths are whole pathnames.
- `useAuth`'s error outside a provider, the theme provider, the landing page, layout, sidebar
  and header composition, and the header's `'User'` fallback name.
- The news feed and dashboard insight tables and the insight icon switch: fixed lookups.
- The search inputs on the insights page and the header, which have no behaviour.
