/**
 * Worked routing examples: concrete queries and the category, team, urgency and
 * suggestions they receive. Each keyword that must be absent is ruled out by a
 * pair of its letters that never appears side by side in the lower-cased query.
 */
module RoutingExamples {
  import opened Wrappers
  import opened Text
  import opened Catalog
  import opened Classify
  import opened Routing

  lemma AccessQueryLowered(query: string)
    requires query == "I cannot access my account"
    ensures Lower(query) == "i cannot access my account"
  {
    var q := "i cannot access my account";
    assert forall i | 0 <= i < |query| :: LowerChar(query[i]) == q[i];
  }

  lemma AccessQueryHasNoBillingTerm()
    ensures !Occurs("invoice", "i cannot access my account")
    ensures !Occurs("billing", "i cannot access my account")
  {
    NotOccursByPair("invoice", "i cannot access my account", 0);
    NotOccursByPair("billing", "i cannot access my account", 0);
  }

  lemma AccessQueryHasNoFailureTerm()
    ensures !Occurs("crash", "i cannot access my account")
    ensures !Occurs("error", "i cannot access my account")
    ensures !Occurs("fail", "i cannot access my account")
  {
    NotOccursByPair("crash", "i cannot access my account", 0);
    NotOccursByPair("error", "i cannot access my account", 0);
    NotOccursByPair("fail", "i cannot access my account", 0);
  }

  lemma AccountWordAt()
    ensures OccursAt("account", "i cannot access my account", 19)
  {
    var t, w := "i cannot access my account", "account";
    assert forall i | 0 <= i < |w| :: t[19 + i] == w[i];
    assert t[19..19 + |w|] == w;
  }

  lemma AccessQueryCategory(query: string, classify: ZeroShot)
    requires query == "I cannot access my account"
    ensures PredictCategory(query, classify) == AccountAccess
  {
    AccessQueryLowered(query);
    AccessQueryHasNoBillingTerm();
    AccessQueryHasNoFailureTerm();
    AccountWordAt();
    AccountBeatsFeature(query, classify);
  }

  lemma AccessQueryUrgent(query: string)
    requires query == "I cannot access my account"
    ensures IsUrgent(query)
  {
    AccessQueryLowered(query);
    AccessPhraseAt();
  }

  lemma AccessPhraseAt()
    ensures OccursAt("cannot access", "i cannot access my account", 2)
  {
    var t, w := "i cannot access my account", "cannot access";
    assert forall i | 0 <= i < |w| :: t[2 + i] == w[i];
    assert t[2..2 + |w|] == w;
  }

  /** The account team and the three account suggestions, in display order. */
  lemma AccountSuggestions()
    ensures TeamFor(AccountAccess) == Some("Team A")
    ensures SuggestionsFor(AccountAccess) == Some([
      "Try resetting your password again.",
      "Check if the account is locked and unlock if possible.",
      "Verify that you are using the correct username or email."])
  {
  }

  lemma AccessQueryAccepted(query: string)
    requires query == "I cannot access my account"
    ensures CheckInput("Ann", "ann@co.com", query).None?
  {
    assert !IsSpace("Ann"[0]) && !IsSpace("ann@co.com"[0]) && !IsSpace(query[0]);
  }

  /** "I cannot access my account": an account issue for Team A, flagged urgent. */
  lemma AccountQueryExample(query: string, classify: ZeroShot)
    requires query == "I cannot access my account"
    ensures CheckInput("Ann", "ann@co.com", query).None?
    ensures PredictCategory(query, classify) == AccountAccess
    ensures TeamFor(AccountAccess) == Some("Team A")
    ensures IsUrgent(query)
    ensures SuggestionsFor(AccountAccess) == Some([
      "Try resetting your password again.",
      "Check if the account is locked and unlock if possible.",
      "Verify that you are using the correct username or email."])
  {
    AccessQueryAccepted(query);
    AccessQueryCategory(query, classify);
    AccessQueryUrgent(query);
    AccountSuggestions();
  }

  /**
   * The same press end to end, on the pool as each run of the page builds it:
   * the query is routed to the account team, flagged urgent, and handed to Alpha.
   */
  method AccountQueryRouted(query: string, classify: ZeroShot) returns (outcome: Outcome)
    requires query == "I cannot access my account"
    ensures outcome.Routed?
    ensures outcome.result.category == AccountAccess && outcome.result.team == "Team A"
    ensures outcome.result.urgent
    ensures outcome.result.clientName == "Alpha"
  {
    AccountQueryExample(query, classify);
    outcome := RouteOnRerun("Ann", "ann@co.com", query, classify);
  }

  lemma WishQueryLowered(query: string)
    requires query == "Can you add dark mode please"
    ensures Lower(query) == "can you add dark mode please"
  {
    var q := "can you add dark mode please";
    assert forall i | 0 <= i < |query| :: LowerChar(query[i]) == q[i];
  }

  lemma WishQueryHasNoBillingTerm()
    ensures !Occurs("invoice", "can you add dark mode please")
    ensures !Occurs("billing", "can you add dark mode please")
  {
    NotOccursByPair("invoice", "can you add dark mode please", 0);
    NotOccursByPair("billing", "can you add dark mode please", 0);
  }

  lemma WishQueryHasNoFailureTerm()
    ensures !Occurs("crash", "can you add dark mode please")
    ensures !Occurs("crashed", "can you add dark mode please")
    ensures !Occurs("error", "can you add dark mode please")
    ensures !Occurs("fail", "can you add dark mode please")
  {
    NotOccursByPair("crash", "can you add dark mode please", 0);
    NotOccursByPair("crashed", "can you add dark mode please", 0);
    NotOccursByPair("error", "can you add dark mode please", 0);
    NotOccursByPair("fail", "can you add dark mode please", 0);
  }

  lemma WishQueryHasNoAccountTerm()
    ensures !Occurs("account", "can you add dark mode please")
    ensures !Occurs("cannot access", "can you add dark mode please")
  {
    NotOccursByPair("account", "can you add dark mode please", 0);
    NotOccursByPair("cannot access", "can you add dark mode please", 3);
  }

  lemma AddWordAt()
    ensures OccursAt("add", "can you add dark mode please", 8)
  {
    var t, w := "can you add dark mode please", "add";
    assert forall i | 0 <= i < |w| :: t[8 + i] == w[i];
    assert t[8..8 + |w|] == w;
  }

  lemma WishQueryCategory(query: string, classify: ZeroShot)
    requires query == "Can you add dark mode please"
    ensures PredictCategory(query, classify) == FeatureRequest
  {
    WishQueryLowered(query);
    WishQueryHasNoBillingTerm();
    WishQueryHasNoFailureTerm();
    WishQueryHasNoAccountTerm();
    AddWordAt();
    FeatureLast(query, classify);
  }

  lemma WishQueryNotUrgent(query: string)
    requires query == "Can you add dark mode please"
    ensures !IsUrgent(query)
  {
    WishQueryLowered(query);
    WishQueryHasNoFailureTerm();
    WishQueryHasNoAccountTerm();
  }

  lemma WishQueryAccepted(query: string)
    requires query == "Can you add dark mode please"
    ensures CheckInput("Ben", "ben@co.com", query).None?
  {
    assert !IsSpace("Ben"[0]) && !IsSpace("ben@co.com"[0]) && !IsSpace(query[0]);
  }

  lemma FeatureTeam()
    ensures TeamFor(FeatureRequest) == Some("Team D")
  {
  }

  /** "Can you add dark mode please": a feature request, through "add", for Team D; not urgent. */
  lemma FeatureQueryExample(query: string, classify: ZeroShot)
    requires query == "Can you add dark mode please"
    ensures CheckInput("Ben", "ben@co.com", query).None?
    ensures PredictCategory(query, classify) == FeatureRequest
    ensures TeamFor(FeatureRequest) == Some("Team D")
    ensures !IsUrgent(query)
  {
    FeatureTeam();
    WishQueryAccepted(query);
    WishQueryCategory(query, classify);
    WishQueryNotUrgent(query);
  }

  lemma CrashQueryLowered(query: string)
    requires query == "The system crashed"
    ensures Lower(query) == "the system crashed"
  {
    var q := "the system crashed";
    assert forall i | 0 <= i < |query| :: LowerChar(query[i]) == q[i];
  }

  lemma DarkModeQueryLowered(query: string)
    requires query == "Please add dark mode"
    ensures Lower(query) == "please add dark mode"
  {
    var q := "please add dark mode";
    assert forall i | 0 <= i < |query| :: LowerChar(query[i]) == q[i];
  }

  lemma DarkModeQueryHasNoUrgentTerm()
    ensures !Occurs("cannot access", "please add dark mode")
    ensures !Occurs("crashed", "please add dark mode")
    ensures !Occurs("error", "please add dark mode")
    ensures !Occurs("fail", "please add dark mode")
  {
    NotOccursByPair("cannot access", "please add dark mode", 0);
    NotOccursByPair("crashed", "please add dark mode", 0);
    NotOccursByPair("error", "please add dark mode", 0);
    NotOccursByPair("fail", "please add dark mode", 0);
  }

  lemma CrashedWordAt()
    ensures OccursAt("crashed", "the system crashed", 11)
  {
    var t, w := "the system crashed", "crashed";
    assert forall i | 0 <= i < |w| :: t[11 + i] == w[i];
    assert t[11..11 + |w|] == w;
  }

  /** The urgency flag on its own: a crash is urgent. */
  lemma CrashIsUrgent(query: string)
    requires query == "The system crashed"
    ensures IsUrgent(query)
  {
    CrashQueryLowered(query);
    CrashedWordAt();
  }

  /** A feature wish without an urgent keyword is not urgent. */
  lemma DarkModeIsNotUrgent(query: string)
    requires query == "Please add dark mode"
    ensures !IsUrgent(query)
  {
    DarkModeQueryLowered(query);
    DarkModeQueryHasNoUrgentTerm();
  }

  lemma VagueQueryLowered(query: string)
    requires query == "The app looks nice today"
    ensures Lower(query) == "the app looks nice today"
  {
    var q := "the app looks nice today";
    assert forall i | 0 <= i < |query| :: LowerChar(query[i]) == q[i];
  }

  lemma VagueQueryHasNoBillingTerm()
    ensures !Occurs("invoice", "the app looks nice today")
    ensures !Occurs("billing", "the app looks nice today")
  {
    NotOccursByPair("invoice", "the app looks nice today", 0);
    NotOccursByPair("billing", "the app looks nice today", 0);
  }

  lemma VagueQueryHasNoFailureTerm()
    ensures !Occurs("crash", "the app looks nice today")
    ensures !Occurs("error", "the app looks nice today")
    ensures !Occurs("fail", "the app looks nice today")
  {
    NotOccursByPair("crash", "the app looks nice today", 0);
    NotOccursByPair("error", "the app looks nice today", 0);
    NotOccursByPair("fail", "the app looks nice today", 0);
  }

  lemma VagueQueryHasNoAccountOrFeatureTerm()
    ensures !Occurs("account", "the app looks nice today")
    ensures !Occurs("feature", "the app looks nice today")
    ensures !Occurs("add", "the app looks nice today")
  {
    NotOccursByPair("account", "the app looks nice today", 0);
    NotOccursByPair("feature", "the app looks nice today", 0);
    NotOccursByPair("add", "the app looks nice today", 0);
  }

  /**
   * "The app looks nice today" matches no keyword family, so its category is
   * whatever the classifier answers.
   */
  lemma AmbiguousQueryExample(query: string, classify: ZeroShot)
    requires query == "The app looks nice today"
    ensures RuleCategory(query).None?
    ensures PredictCategory(query, classify) == classify(query, Categories, HypothesisTemplate)
  {
    VagueQueryLowered(query);
    VagueQueryHasNoBillingTerm();
    VagueQueryHasNoFailureTerm();
    VagueQueryHasNoAccountOrFeatureTerm();
    FallbackOnlyWithoutKeywords(query);
    ClassifierDecidesWithoutKeywords(query, classify);
  }

  lemma AddressQueryLowered(query: string)
    requires query == "Please update my Address"
    ensures Lower(query) == "please update my address"
  {
    var q := "please update my address";
    assert forall i | 0 <= i < |query| :: LowerChar(query[i]) == q[i];
  }

  lemma AddressQueryHasNoBillingTerm()
    ensures !Occurs("invoice", "please update my address")
    ensures !Occurs("billing", "please update my address")
    ensures !Occurs("crash", "please update my address")
  {
    NotOccursByPair("invoice", "please update my address", 0);
    NotOccursByPair("billing", "please update my address", 0);
    NotOccursByPair("crash", "please update my address", 0);
  }

  lemma AddressQueryHasNoOtherEarlierTerm()
    ensures !Occurs("error", "please update my address")
    ensures !Occurs("fail", "please update my address")
    ensures !Occurs("account", "please update my address")
  {
    NotOccursByPair("error", "please update my address", 0);
    NotOccursByPair("fail", "please update my address", 0);
    NotOccursByPair("account", "please update my address", 0);
  }

  lemma AddressAddAt()
    ensures OccursAt("add", "please update my address", 17)
  {
    var t, w := "please update my address", "add";
    assert forall i | 0 <= i < |w| :: t[17 + i] == w[i];
    assert t[17..17 + |w|] == w;
  }

  /**
   * The keyword tests are substring tests, not word tests: "address" contains
   * "add", so a request to change an address is routed as a feature request.
   */
  lemma AddressQueryIsFeatureRequest(query: string, classify: ZeroShot)
    requires query == "Please update my Address"
    ensures PredictCategory(query, classify) == FeatureRequest
  {
    AddressQueryLowered(query);
    AddressQueryHasNoBillingTerm();
    AddressQueryHasNoOtherEarlierTerm();
    AddressAddAt();
    FeatureLast(query, classify);
  }
}
