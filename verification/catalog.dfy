/**
 * The static routing tables: the five category labels, the team that owns each
 * category and the ordered remediation suggestions shown for each category.
 * The tables are dictionaries keyed by the label text, as in the application.
 */
module Catalog {
  import opened Wrappers

  const AccountAccess := "Account Access Issue"
  const BillingInvoice := "Billing / Invoice Query"
  const TechnicalSupport := "Technical / System Support"
  const FeatureRequest := "Feature Request"
  const GeneralFeedback := "General Feedback"

  /** The candidate labels, in the order they are handed to the classifier. */
  const Categories: seq<string> :=
    [AccountAccess, BillingInvoice, TechnicalSupport, FeatureRequest, GeneralFeedback]

  const TeamMapping: map<string, string> := map[
    AccountAccess := "Team A",
    BillingInvoice := "Team B",
    TechnicalSupport := "Team C",
    FeatureRequest := "Team D",
    GeneralFeedback := "Team E"
  ]

  const AlternativeSuggestions: map<string, seq<string>> := map[
    AccountAccess := [
      "Try resetting your password again.",
      "Check if the account is locked and unlock if possible.",
      "Verify that you are using the correct username or email."
    ],
    BillingInvoice := [
      "Check the invoice details for duplicate charges.",
      "Verify the billing cycle and subscription plan.",
      "Confirm recent payments and adjustments."
    ],
    TechnicalSupport := [
      "Restart the application or system.",
      "Check for updates or patches.",
      "Verify network connectivity and error logs."
    ],
    FeatureRequest := [
      "Check if there is an existing workaround.",
      "See if a temporary solution can meet the requirement.",
      "Confirm the feasibility of the request before escalating."
    ],
    GeneralFeedback := [
      "Acknowledge the feedback and thank the client.",
      "Check if immediate action is needed.",
      "Forward to the relevant team if applicable."
    ]
  ]

  /** The five labels are pairwise different. */
  lemma CategoriesDistinct()
    ensures forall i, j | 0 <= i < j < |Categories| :: Categories[i] != Categories[j]
  {
  }

  /** `team_mapping[category]`: the owning team, or nothing for a key outside the table. */
  function TeamFor(category: string): (r: Option<string>)
    ensures r.Some? <==> category in Categories
    ensures forall i | 0 <= i < |Categories| ::
      category == Categories[i] ==> r == Some("Team " + [('A' as int + i) as char])
  {
    TeamsFollowLabelOrder();
    if category in TeamMapping then Some(TeamMapping[category]) else None
  }

  /** The team letters run A to E in the order of the labels. */
  lemma TeamsFollowLabelOrder()
    ensures forall i | 0 <= i < |Categories| ::
      Categories[i] in TeamMapping && TeamMapping[Categories[i]] == "Team " + [('A' as int + i) as char]
  {
    assert TeamMapping[Categories[0]] == "Team " + ['A'];
    assert TeamMapping[Categories[1]] == "Team " + ['B'];
    assert TeamMapping[Categories[2]] == "Team " + ['C'];
    assert TeamMapping[Categories[3]] == "Team " + ['D'];
    assert TeamMapping[Categories[4]] == "Team " + ['E'];
  }

  /** Different categories are owned by different teams: the mapping is one to one. */
  lemma TeamMappingInjective(a: string, b: string)
    requires a in Categories && b in Categories && a != b
    ensures TeamFor(a).value != TeamFor(b).value
  {
  }

  /** `alternative_suggestions[category]`, or nothing for a key outside the table. */
  function SuggestionsFor(category: string): (r: Option<seq<string>>)
    ensures r.Some? <==> category in Categories
    ensures r.Some? ==> |r.value| == 3 && forall k | 0 <= k < 3 :: r.value[k] != ""
  {
    if category in AlternativeSuggestions then Some(AlternativeSuggestions[category]) else None
  }

  /** Both tables are keyed by exactly the five labels, so one lookup succeeds iff the other does. */
  lemma TablesShareKeys()
    ensures TeamMapping.Keys == AlternativeSuggestions.Keys
    ensures forall c :: c in TeamMapping <==> c in Categories
  {
  }
}
