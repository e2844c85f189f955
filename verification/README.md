# Client query routing — a Dafny model

This project models the routing core of the client query routing page (`app.py`).
An employee submits a name, an e-mail address and a free-text client query. The core then does six things:

- It checks that the three fields are not blank.
- It predicts one of five categories: keyword rules first, then a zero-shot classifier as fallback.
- It looks up the team that owns the category.
- It assigns the first least-loaded client handler and advances that handler's `next_available_slot` counter.
- It flags the query as urgent when an urgent keyword occurs in it.
- It shows the three remediation suggestions for the category.

Modules, one per part of the core:

- `Text` (text.dfy): `lower()`, `capitalize()` and `strip()`, plus the substring test `sub in s`. Substring occurrence is defined once (`Occurs`), and `Contains` is proved to compute it.
- `Catalog` (catalog.dfy): the category labels, `team_mapping` and `alternative_suggestions`. The two tables are Dafny maps keyed by label text, as the dictionaries are.
- `Classify` (classify.dfy): the keyword rule chain, the classifier fallback and the urgency flag. The classifier is a function parameter. It takes the query, the candidate labels and the hypothesis template, and returns the top label.
- `Pool` (pool.dfy): the `clients` dictionary as a class `HandlerPool`. The pool is an object that outlives a single press (see "Findings" for how the script as written behaves instead). Its key and e-mail sequences are constant; its counter sequence is updated in place. `SelectHandler` is the left-to-right scan that Python's `min` performs. `Assign` selects and increments, and looks the entry up again under the lower-cased display name, as line 101 does. The pool invariant (`Valid`) says that no two counters are more than one apart.
- `Routing` (routing.dfy): the input gate and one press of "Route Query" as a method `Route` on a pool. `RouteOnRerun` is one press as the page runs it: on a pool built afresh.
- `RoutingExamples` (examples_routing.dfy): concrete queries and how they are routed.

"fail", "error" and "crashed" (which contains "crash") all belong to the failure rule (app.py:85), which only the billing rule (app.py:83) precedes. So a query flagged urgent through one of them is billing or technical support, never a feature request or an account issue; "billing failed", for instance, is urgent and billing. `Classify.UrgentRuleCategory` proves that only "cannot access" lets an urgent query land outside billing and technical support.

The code has no typed errors:

- Blank fields give one of two warning messages. The model follows this with `Routing.Outcome.Warning`.
- A classifier label that is not a key of `team_mapping` raises `KeyError` at line 95 (`Routing.Outcome.KeyError`).
- A classifier failure is an uncaught exception (see "Left out").

## Model

| member | source | states |
|---|---|---|
| `Text.Lower` | app.py:83-90 | `lower()` keeps the length and maps each character on its own, leaving no ASCII upper-case letter |
| `Text.Contains` | app.py:83-90 | `sub in s` holds exactly when `sub` occurs at some position of `s` |
| `Text.SkipSpace` | app.py:77-79 | the left scan of `strip()` stops at the first non-whitespace character, having passed only whitespace |
| `Text.TrimSpace` | app.py:77-79 | the right scan of `strip()` stops after the last non-whitespace character, never crossing the left end, having passed only whitespace |
| `Text.Strip` | app.py:77-79 | `strip()` is empty iff every character is whitespace; otherwise it starts and ends with non-whitespace and occurs in the original |
| `Text.Capitalize` | app.py:99 | same length, first character not lower-case, rest without upper-case letters |
| `Text.CapitalizeLowerRoundTrip` | app.py:99-101 | `capitalize()` followed by `lower()` equals `lower()` |
| `Text.CapitalizeRoundTripOnKey` | app.py:99-101 | an all-lower-case key such as "alpha" comes back unchanged from `capitalize().lower()`, so the lookup at line 101 finds the selected entry |
| `Text.LowerIdempotent` | app.py:83-90 | lower-casing twice is lower-casing once |
| `Text.LowerAppend` | app.py:83-90 | lower-casing distributes over concatenation |
| `Text.OccursTransitive` | app.py:85 | an occurrence within an occurrence is an occurrence (used for "crashed" ⊇ "crash") |
| `Catalog.CategoriesDistinct` | app.py:13-19 | the five category labels are pairwise different |
| `Catalog.TeamFor` | app.py:21-27 | the team lookup succeeds exactly for the five labels, and the i-th label maps to "Team A" + i (A to E) |
| `Catalog.TeamsFollowLabelOrder` | app.py:21-27 | the teams run A to E in label order |
| `Catalog.TeamMappingInjective` | app.py:21-27 | different categories get different teams |
| `Catalog.SuggestionsFor` | app.py:39-65 | the suggestion lookup succeeds exactly for the five labels and yields three non-empty strings, so the numbered list at line 119 has items 1 to 3 |
| `Catalog.TablesShareKeys` | app.py:21-65 | both tables are keyed by exactly the five labels |
| `Classify.RuleCategory` | app.py:83-90 | a keyword rule, when one fires, yields one of the labels and never "General Feedback" |
| `Classify.PredictCategory` | app.py:83-93 | the predicted category is a label, unless no rule fired and the classifier's answer is used as is (the lemmas below fix which one) |
| `Classify.AnyOccurs` | app.py:114 | `any(word in text for word in words)` holds iff some word occurs in the text |
| `Classify.IsUrgent` | app.py:114 | urgent iff the lower-cased query contains "cannot access", "crashed", "error" or "fail" |
| `Classify.BillingWins` | app.py:83-84 | "invoice" or "billing" makes the predicted category "Billing / Invoice Query" whatever else the query contains and whatever the classifier would say |
| `Classify.BillingWinsInContext` | app.py:83-84 | a billing term anywhere inside a longer query, of any case, still makes the predicted category billing |
| `Classify.FailureBeatsAccountAndFeature` | app.py:85-86 | without a billing term, "crash"/"error"/"fail" make the predicted category technical support even with "account" or "add" present |
| `Classify.AccountBeatsFeature` | app.py:87-88 | without billing or failure terms, "account" makes the predicted category the account issue, beating "feature"/"add" |
| `Classify.FeatureLast` | app.py:89-90 | "feature"/"add" make the predicted category a feature request when no earlier family matches |
| `Classify.FallbackOnlyWithoutKeywords` | app.py:83-91 | the classifier is consulted iff none of the four keyword families occurs |
| `Classify.ClassifierDecidesWithoutKeywords` | app.py:91-93 | when no keyword family occurs, the predicted category is exactly the classifier's top label |
| `Classify.RulesIgnoreCase` | app.py:83-90 | the rules give the same answer for a query and its lower-case form |
| `Classify.ClassifierOnlyOnFallback` | app.py:91-93 | when a rule fires, any two classifiers lead to the same category |
| `Classify.PredictionIsALabel` | app.py:91-93 | if the classifier answers with an offered label, the category is one of the five |
| `Classify.UrgentRuleCategory` | app.py:83-114 | an urgent query without "cannot access" is classified billing or technical support |
| `Pool.FirstMinIndex` | app.py:98 | the position `min` selects is minimal and strictly below every earlier counter |
| `Pool.FirstMinUnique` | app.py:98 | that position is unique, so ties go to the earliest handler |
| `Pool.SelectHandler` | app.py:98 | the left-to-right scan returns the first minimal counter |
| `Pool.IndexOf` | app.py:101 | a dictionary key lookup finds the key's position exactly when the key is present |
| `Pool.Next` | app.py:98-101 | one assignment: the first minimal counter grows by one and every other counter stays |
| `Pool.NextRaisesOnlyFirstMin` | app.py:98-101 | after one assignment, a counter has grown by one exactly when it was the first minimum, and is unchanged otherwise |
| `Pool.NextKeepsBalanced` | app.py:98-101 | incrementing the selected minimal counter keeps all counters within one of each other |
| `Pool.SumIncrement` | app.py:101 | raising any one counter by one raises the total load by exactly one |
| `Pool.NextAddsOne` | app.py:98-101 | one assignment raises the total load by exactly one |
| `Pool.EvenShare` | app.py:98-101 | balanced counters whose total is the pool size times m are all m |
| `Pool.RunInvariant` | app.py:98-101 | after n assignments the counters are still balanced and their total has grown by n |
| `Pool.FairRounds` | app.py:98-101 | from equal counters, (pool size × m) assignments give every handler exactly m more |
| `Pool.FirstRoundInInsertionOrder` | app.py:32-36 | from the initial counters, assignments go to alpha, then beta, then gamma |
| `Pool.HandlerPool.constructor` | app.py:32-36 | the pool starts with keys alpha, beta, gamma, their addresses, and counters 0 |
| `Pool.HandlerPool.Assign` | app.py:98-101 | the chosen handler is the first with a minimal counter; its display name is the capitalized key; only its counter grows, by one; the pool stays valid |
| `Routing.CheckInput` | app.py:77-80 | a whitespace-only query gives the query warning first; otherwise a whitespace-only name or e-mail gives the details warning; otherwise no warning |
| `Routing.Route` | app.py:77-119 | a warning or a team lookup miss leaves the counters unchanged; a routed query carries the predicted category, its team, the assigned handler, the urgency flag and the category's suggestions, and advances only the chosen counter |
| `Routing.RouteOnRerun` | app.py:32-36 | a press on the pool as the script rebuilds it (all counters 0) is validated and looked up like any press, and when routed yields the same result record as `Route` with the handler always Alpha, alpha@gmail.com |
| `Routing.FreshPoolPicksAlpha` | app.py:32-36 | on the starting counters `min` selects alpha, displayed as "Alpha" |
| `Routing.RoutedWhenClassifierAnswersALabel` | app.py:91-95 | with a label-returning classifier, valid input never hits a missing key |
| `Routing.BlankInputExamples` | app.py:77-80 | an empty name gives the details warning; an empty or whitespace query gives the query warning, even when the name is also empty |
| `RoutingExamples.AccountQueryExample` | app.py:83-119 | "I cannot access my account" is accepted, is predicted an account issue for any classifier, goes to Team A, is urgent, and gets the three account suggestions |
| `RoutingExamples.AccountQueryRouted` | app.py:76-119 | one press with "I cannot access my account" is routed to the account issue, Team A, flagged urgent, and handed to Alpha |
| `RoutingExamples.AccountSuggestions` | app.py:21-44 | the account category goes to Team A and its suggestions come in their display order |
| `RoutingExamples.FeatureQueryExample` | app.py:83-114 | "Can you add dark mode please" is accepted, is predicted a feature request for any classifier, goes to Team D, and is not urgent |
| `RoutingExamples.CrashIsUrgent` | app.py:114 | "The system crashed" is urgent |
| `RoutingExamples.DarkModeIsNotUrgent` | app.py:114 | "Please add dark mode" is not urgent |
| `RoutingExamples.AmbiguousQueryExample` | app.py:83-93 | "The app looks nice today" matches no rule and takes the classifier's answer |
| `RoutingExamples.AddressQueryIsFeatureRequest` | app.py:89-90 | "address" contains "add", so "Please update my Address" is predicted a feature request for any classifier |

## Left out

- The page itself (title, text inputs, button, markdown, warning, error and success rendering, app.py:68-76 and 106-122) is presentation. The model returns the values the page displays.
- The zero-shot classifier and its model load (app.py:2, 6-10, 92) are a foreign call. They are a function parameter returning the top label. An exception from that call is not modelled, because the code does not catch it. The label list the pipeline returns is taken to be non-empty, since it holds every candidate label.
- The timestamp (app.py:103) is wall-clock time with no behaviour to verify.
- Text.Lower: only ASCII letters are mapped. Python's Unicode case mapping of other characters is not modelled.
- Text.Capitalize: the first character is upper-cased over ASCII only. Python's title-casing of other characters is not modelled.
- Routing.Route: the pool it updates is a counter that lives as long as the process. The script as written keeps it only for one run of the page, which rebuilds `clients` on every interaction (see "Findings"); session state that would carry it across runs is not modelled.
- Concurrency: the script is single-threaded. Each press is one sequential call, so selection and increment happen in one step.

## Findings

| source | as written | input that shows it | evidently intended | confidence | as-written member | corrected member |
|---|---|---|---|---|---|---|
| app.py:32-36, 98-101 | `clients` is a module-level dictionary built with every counter at 0, and Streamlit runs the script again from the top on every interaction, so each press selects alpha and the increment at line 101 is discarded with the run | two valid presses in a row, e.g. "I cannot access my account" then "Please add dark mode": both are assigned "Alpha" | the counters persist across presses, so handlers rotate alpha, beta, gamma and share the load evenly | not executed; rests on Streamlit re-running the script per interaction | `Routing.RouteOnRerun` | `Routing.Route` on a persistent pool, with `Pool.FairRounds` and `Pool.FirstRoundInInsertionOrder` |
