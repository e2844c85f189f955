/**
 * One press of "Route Query": validate the form, predict the category, look up
 * the team, assign a client handler, flag urgency and fetch the suggestions.
 * Rendering and the timestamp belong to the page, not to this model.
 */
module Routing {
  import opened Wrappers
  import opened Text
  import opened Catalog
  import opened Classify
  import opened Pool

  const QueryWarning := "Please enter a client query!"
  const DetailsWarning := "Please enter employee details!"

  /** The decision shown for a routed query. */
  datatype RoutingResult = RoutingResult(
    employeeName: string,
    employeeEmail: string,
    query: string,
    clientName: string,
    clientEmail: string,
    category: string,
    team: string,
    urgent: bool,
    suggestions: seq<string>)

  /**
   * What one press produces: a warning, a failed dictionary lookup (a
   * classifier label that is not a key of the team table), or a routing decision.
   */
  datatype Outcome =
    | Warning(message: string)
    | KeyError(key: string)
    | Routed(result: RoutingResult)

  /**
   * The input gate: the query is checked first, then the employee details.
   * A field counts as blank when it is empty or whitespace only.
   */
  function CheckInput(name: string, email: string, query: string): (r: Option<string>)
    ensures r == Some(QueryWarning) <==> AllSpace(query)
    ensures r == Some(DetailsWarning) <==> !AllSpace(query) && (AllSpace(name) || AllSpace(email))
    ensures r == None <==> !AllSpace(query) && !AllSpace(name) && !AllSpace(email)
  {
    if Strip(query) == [] then Some(QueryWarning)
    else if Strip(name) == [] || Strip(email) == [] then Some(DetailsWarning)
    else None
  }

  /**
   * Routes one query. A warning or a failed lookup leaves the handler counters as
   * they were; a routed query advances exactly the chosen handler's counter.
   */
  method Route(pool: HandlerPool, name: string, email: string, query: string, classify: ZeroShot)
    returns (outcome: Outcome)
    requires pool.Valid()
    modifies pool
    ensures pool.Valid()
    ensures outcome.Warning? <==> CheckInput(name, email, query).Some?
    ensures outcome.Warning? ==> outcome.message == CheckInput(name, email, query).value
    ensures outcome.KeyError? <==>
      CheckInput(name, email, query).None? && PredictCategory(query, classify) !in Categories
    ensures outcome.KeyError? ==> outcome.key == PredictCategory(query, classify)
    ensures !outcome.Routed? ==> pool.slots == old(pool.slots)
    ensures outcome.Routed? ==>
      var category := PredictCategory(query, classify);
      var k := FirstMinIndex(old(pool.slots));
      && pool.slots == Next(old(pool.slots))
      && outcome.result == RoutingResult(
           name, email, query, Capitalize(pool.keys[k]), pool.emails[k], category,
           TeamFor(category).value, IsUrgent(query), SuggestionsFor(category).value)
  {
    var warning := CheckInput(name, email, query);
    if warning.Some? {
      return Warning(warning.value);
    }
    var category := PredictCategory(query, classify);
    var team := TeamFor(category);
    if team.None? {
      return KeyError(category);
    }
    var k, clientName, clientEmail := pool.Assign();
    FirstMinUnique(old(pool.slots), k, FirstMinIndex(old(pool.slots)));
    var urgent := IsUrgent(query);
    var suggestions := SuggestionsFor(category).value;
    outcome := Routed(RoutingResult(
      name, email, query, clientName, clientEmail, category, team.value, urgent, suggestions));
  }

  /**
   * One press as the script runs it: every run of the page rebuilds `clients`
   * with all counters at 0 before routing, so the pool the press updates is
   * fresh and is discarded afterwards. Every routed query then goes to alpha.
   */
  method RouteOnRerun(name: string, email: string, query: string, classify: ZeroShot)
    returns (outcome: Outcome)
    ensures outcome.Warning? <==> CheckInput(name, email, query).Some?
    ensures outcome.KeyError? <==>
      CheckInput(name, email, query).None? && PredictCategory(query, classify) !in Categories
    ensures outcome.Routed? ==>
      var category := PredictCategory(query, classify);
      outcome.result == RoutingResult(
        name, email, query, "Alpha", "alpha@gmail.com", category,
        TeamFor(category).value, IsUrgent(query), SuggestionsFor(category).value)
  {
    var pool := new HandlerPool();
    FreshPoolPicksAlpha();
    outcome := Route(pool, name, email, query, classify);
  }

  /** On the counters the script starts from, `min` picks alpha, displayed as "Alpha". */
  lemma FreshPoolPicksAlpha()
    ensures FirstMinIndex([0, 0, 0]) == 0
    ensures Capitalize("alpha") == "Alpha"
  {
    FirstMinUnique([0, 0, 0], 0, FirstMinIndex([0, 0, 0]));
    assert Lower("lpha") == "lpha";
  }

  /**
   * With a classifier that answers with one of the labels it is offered, a query
   * that passes the input gate is always routed.
   */
  lemma RoutedWhenClassifierAnswersALabel(name: string, email: string, query: string, classify: ZeroShot)
    requires CheckInput(name, email, query).None?
    requires classify(query, Categories, HypothesisTemplate) in Categories
    ensures TeamFor(PredictCategory(query, classify)).Some?
    ensures SuggestionsFor(PredictCategory(query, classify)).Some?
  {
    PredictionIsALabel(query, classify);
  }

  /** Blank fields: an empty employee name, and an empty or whitespace-only query. */
  lemma BlankInputExamples()
    ensures CheckInput("", "e@x.com", "hi") == Some(DetailsWarning)
    ensures CheckInput("Ann", "a@x.com", "") == Some(QueryWarning)
    ensures CheckInput("Ann", "a@x.com", " \t\n") == Some(QueryWarning)
    ensures CheckInput("", "", "  ") == Some(QueryWarning)
  {
    assert !IsSpace("hi"[0]);
  }
}
