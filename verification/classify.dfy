/**
 * Category prediction and urgency detection for one client query.
 *
 * The rule chain tests keyword families over the lower-cased query in a fixed
 * priority order: billing, then failures, then account, then features. Only when no
 * family matches is the external zero-shot classifier consulted. That classifier is a
 * parameter here: a function from (query, candidate labels, hypothesis template) to
 * the top-scoring label it reports.
 */
module Classify {
  import opened Wrappers
  import opened Text
  import opened Catalog

  type ZeroShot = (string, seq<string>, string) -> string

  const HypothesisTemplate := "This text is about {}."

  const UrgentKeywords: seq<string> := ["cannot access", "crashed", "error", "fail"]

  /** The keyword families of the rule chain, as they occur in the lower-cased query. */
  ghost predicate MentionsBilling(query: string) {
    Occurs("invoice", Lower(query)) || Occurs("billing", Lower(query))
  }

  ghost predicate MentionsFailure(query: string) {
    Occurs("crash", Lower(query)) || Occurs("error", Lower(query)) || Occurs("fail", Lower(query))
  }

  ghost predicate MentionsAccount(query: string) {
    Occurs("account", Lower(query))
  }

  ghost predicate MentionsFeature(query: string) {
    Occurs("feature", Lower(query)) || Occurs("add", Lower(query))
  }

  /** The keyword chain; `None` means that no rule decides and the classifier must. */
  function RuleCategory(query: string): (r: Option<string>)
    ensures r.Some? ==> r.value in Categories && r.value != GeneralFeedback
  {
    var q := Lower(query);
    if Contains(q, "invoice") || Contains(q, "billing") then Some(BillingInvoice)
    else if Contains(q, "crash") || Contains(q, "error") || Contains(q, "fail") then Some(TechnicalSupport)
    else if Contains(q, "account") then Some(AccountAccess)
    else if Contains(q, "feature") || Contains(q, "add") then Some(FeatureRequest)
    else None
  }

  /**
   * The predicted category: the rule's answer, or else the classifier's top label.
   * A label outside the five can only come from the classifier.
   */
  function PredictCategory(query: string, classify: ZeroShot): (r: string)
    ensures r in Categories || (RuleCategory(query).None? && r == classify(query, Categories, HypothesisTemplate))
  {
    match RuleCategory(query)
    case Some(category) => category
    case None => classify(query, Categories, HypothesisTemplate)
  }

  /** True iff some word of `words` occurs in `text`. */
  function AnyOccurs(words: seq<string>, text: string): (r: bool)
    ensures r <==> exists k | 0 <= k < |words| :: Occurs(words[k], text)
  {
    if words == [] then false
    else Contains(text, words[0]) || AnyOccurs(words[1..], text)
  }

  /** The urgency flag: an urgent keyword occurs in the lower-cased query. */
  function IsUrgent(query: string): (r: bool)
    ensures r <==> (Occurs("cannot access", Lower(query)) || Occurs("crashed", Lower(query))
                    || Occurs("error", Lower(query)) || Occurs("fail", Lower(query)))
  {
    var q := Lower(query);
    assert Occurs(UrgentKeywords[0], q) <==> Occurs("cannot access", q);
    assert Occurs(UrgentKeywords[1], q) <==> Occurs("crashed", q);
    assert Occurs(UrgentKeywords[2], q) <==> Occurs("error", q);
    assert Occurs(UrgentKeywords[3], q) <==> Occurs("fail", q);
    AnyOccurs(UrgentKeywords, q)
  }

  /**
   * A billing term decides the category, whatever else the query mentions and
   * whatever the classifier would have answered.
   */
  lemma BillingWins(query: string, classify: ZeroShot)
    requires MentionsBilling(query)
    ensures RuleCategory(query) == Some(BillingInvoice)
    ensures PredictCategory(query, classify) == BillingInvoice
  {
  }

  /** Failure terms come second: they beat account and feature terms. */
  lemma FailureBeatsAccountAndFeature(query: string, classify: ZeroShot)
    requires !MentionsBilling(query) && MentionsFailure(query)
    ensures RuleCategory(query) == Some(TechnicalSupport)
    ensures PredictCategory(query, classify) == TechnicalSupport
  {
  }

  /** Account terms come third: they beat feature terms. */
  lemma AccountBeatsFeature(query: string, classify: ZeroShot)
    requires !MentionsBilling(query) && !MentionsFailure(query) && MentionsAccount(query)
    ensures RuleCategory(query) == Some(AccountAccess)
    ensures PredictCategory(query, classify) == AccountAccess
  {
  }

  /** Feature terms come last: they decide only when no earlier family matches. */
  lemma FeatureLast(query: string, classify: ZeroShot)
    requires !MentionsBilling(query) && !MentionsFailure(query) && !MentionsAccount(query)
    requires MentionsFeature(query)
    ensures RuleCategory(query) == Some(FeatureRequest)
    ensures PredictCategory(query, classify) == FeatureRequest
  {
  }

  /** The classifier is consulted exactly when none of the four families matches. */
  lemma FallbackOnlyWithoutKeywords(query: string)
    ensures RuleCategory(query).None? <==>
      !MentionsBilling(query) && !MentionsFailure(query) && !MentionsAccount(query) && !MentionsFeature(query)
  {
  }

  /** Without any keyword family, the category is the classifier's top label, whatever it is. */
  lemma ClassifierDecidesWithoutKeywords(query: string, classify: ZeroShot)
    requires !MentionsBilling(query) && !MentionsFailure(query) && !MentionsAccount(query)
    requires !MentionsFeature(query)
    ensures PredictCategory(query, classify) == classify(query, Categories, HypothesisTemplate)
  {
    FallbackOnlyWithoutKeywords(query);
  }

  /**
   * A billing term anywhere in a longer query still decides the category:
   * surrounding text, in any case, cannot override it.
   */
  lemma {:induction false} BillingWinsInContext(query: string, before: string, after: string, classify: ZeroShot)
    requires MentionsBilling(query)
    ensures PredictCategory(before + query + after, classify) == BillingInvoice
  {
    LowerAppend(before + query, after);
    LowerAppend(before, query);
    if Occurs("invoice", Lower(query)) {
      OccursInAppend("invoice", Lower(query), Lower(before), Lower(after));
    } else {
      OccursInAppend("billing", Lower(query), Lower(before), Lower(after));
    }
    BillingWins(before + query + after, classify);
  }

  /** The rules look at the lower-cased query only, so case never matters to them. */
  lemma {:induction false} RulesIgnoreCase(query: string)
    ensures RuleCategory(Lower(query)) == RuleCategory(query)
  {
    LowerIdempotent(query);
  }

  /** When a rule decides, the classifier's answer is irrelevant. */
  lemma ClassifierOnlyOnFallback(query: string, f: ZeroShot, g: ZeroShot)
    requires RuleCategory(query).Some?
    ensures PredictCategory(query, f) == PredictCategory(query, g)
  {
  }

  /**
   * If the classifier answers with one of the labels it was offered, the predicted
   * category is always one of the five labels.
   */
  lemma PredictionIsALabel(query: string, classify: ZeroShot)
    requires classify(query, Categories, HypothesisTemplate) in Categories
    ensures PredictCategory(query, classify) in Categories
  {
  }

  /**
   * Urgency is decided apart from the category, yet the two interact: of the four
   * urgent keywords only "cannot access" leaves the rules free to choose anything
   * but billing or technical support, since "crashed" contains "crash".
   */
  lemma {:induction false} UrgentRuleCategory(query: string)
    requires IsUrgent(query) && !Occurs("cannot access", Lower(query))
    ensures RuleCategory(query) == Some(BillingInvoice) || RuleCategory(query) == Some(TechnicalSupport)
  {
    if Occurs("crashed", Lower(query)) {
      assert OccursAt("crash", "crashed", 0);
      OccursTransitive("crash", "crashed", Lower(query));
    }
  }
}
