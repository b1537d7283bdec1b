/** Which guarantee depends on which rule: exactly, for each of the 64 ways to follow or break the six. */
module Exactness {
  import opened RaftTypes
  import opened Cluster
  import opened Guarantees
  import opened LogSteps
  import opened Safety
  import Shape
  import AppendOnly
  import opened Necessity
  import opened NecessityVote
  import opened NecessityFive

  ghost predicate AlwaysOneLeader(rules: Rules) {
    forall n: nat, run, acts :: IsRun(rules, n, run, acts) ==> ElectionSafe(run)
  }

  ghost predicate AlwaysAppendOnly(rules: Rules) {
    forall n: nat, run, acts :: IsRun(rules, n, run, acts) ==> LeadersOnlyAppend(run)
  }

  ghost predicate AlwaysShaped(rules: Rules) {
    forall n: nat, run, acts :: IsRun(rules, n, run, acts) ==> LogsShaped(run)
  }

  ghost predicate AlwaysMatching(rules: Rules) {
    forall n: nat, run, acts :: IsRun(rules, n, run, acts) ==> LogsMatch(run)
  }

  ghost predicate AlwaysComplete(rules: Rules) {
    forall n: nat, run, acts :: IsRun(rules, n, run, acts) ==> LeadersComplete(run)
  }

  ghost predicate AlwaysAgreeing(rules: Rules) {
    forall n: nat, run, acts :: IsRun(rules, n, run, acts) ==> CommitsAgree(run)
  }

  /** Election safety holds of every run exactly under the first two rules, whatever the other four are. */
  lemma ElectionSafetyExactly(rules: Rules)
    ensures AlwaysOneLeader(rules) <==> rules.keepVote && rules.giveUp
  {
    if rules.keepVote && rules.giveUp {
      forall n: nat, run, acts | IsRun(rules, n, run, acts) ensures ElectionSafe(run) {
        ElectionSafety(rules, n, run, acts);
      }
    } else if !rules.keepVote {
      var run, acts := VoteClearedByVictory(rules);
    } else {
      var run, acts := OvertakenCandidateLeads(rules);
    }
  }

  /** Leaders only append exactly under the first three. */
  lemma LeaderAppendOnlyExactly(rules: Rules)
    ensures AlwaysAppendOnly(rules) <==> ElectionRules(rules)
  {
    if ElectionRules(rules) {
      forall n: nat, run, acts | IsRun(rules, n, run, acts) ensures LeadersOnlyAppend(run) {
        AppendOnly.LeaderAppendOnly(rules, n, run, acts);
      }
    } else if !rules.keepVote {
      var run, acts := VoteClearedByVictory(rules);
    } else if !rules.giveUp {
      var run, acts := OvertakenCandidateLeads(rules);
    } else {
      var run, acts := StaleRoleTruncates(rules);
    }
  }

  /** Logs are well formed exactly under the fourth. */
  lemma LogShapeExactly(rules: Rules)
    ensures AlwaysShaped(rules) <==> rules.appendNew
  {
    if rules.appendNew {
      forall n: nat, run, acts | IsRun(rules, n, run, acts) ensures LogsShaped(run) {
        Shape.LogShape(rules, n, run, acts);
      }
    } else {
      var run, acts := EntryAppendedTwice(rules);
    }
  }

  /** Log matching holds exactly under the first four. */
  lemma LogMatchingExactly(rules: Rules)
    ensures AlwaysMatching(rules) <==> ElectionRules(rules) && rules.appendNew
  {
    if ElectionRules(rules) && rules.appendNew {
      forall n: nat, run, acts | IsRun(rules, n, run, acts) ensures LogsMatch(run) {
        LogMatching(rules, n, run, acts);
      }
    } else if !rules.keepVote {
      var run, acts := LeaderOverwrites(rules);
    } else if !rules.giveUp {
      var run, acts := OvertakenCandidateLeads(rules);
    } else if !rules.leaderOnly {
      var run, acts := StaleRoleAppends(rules);
    } else {
      var run, acts := EntryAppendedTwice(rules);
    }
  }

  /** Whichever rule is broken, some run has two peers that commit different entries at one index, and a leader
      that lacks an entry committed before. */
  lemma AnyBrokenRuleBreaks(rules: Rules) returns (n: nat, run: seq<State>, acts: seq<Action>)
    requires rules != AS_COMMENTED
    ensures IsRun(rules, n, run, acts) && !CommitsAgree(run) && !LeadersComplete(run)
  {
    n := if rules.keepVote && rules.giveUp && rules.leaderOnly && rules.appendNew then 5 else 3;
    if !rules.keepVote {
      run, acts := VoteClearedByVictory(rules);
    } else if !rules.giveUp {
      run, acts := OvertakenCandidateLeads(rules);
    } else if !rules.leaderOnly {
      run, acts := StaleRoleAppends(rules);
    } else if !rules.appendNew {
      run, acts := EntryAppendedTwice(rules);
    } else if !rules.matchVerified {
      run, acts := UnverifiedMatchCounts(rules);
    } else {
      run, acts := OldTermCounts(rules);
    }
  }

  /** State machine safety holds exactly under all six: each departure of the code from its own comments breaks it,
      whatever else is kept, and following all of them is enough. */
  lemma StateMachineSafetyExactly(rules: Rules)
    ensures AlwaysAgreeing(rules) <==> rules == AS_COMMENTED
  {
    if rules == AS_COMMENTED {
      forall n: nat, run, acts | IsRun(rules, n, run, acts) ensures CommitsAgree(run) {
        StateMachineSafety(n, run, acts);
      }
    } else {
      var n, run, acts := AnyBrokenRuleBreaks(rules);
    }
  }

  /** And so does leader completeness. */
  lemma LeaderCompletenessExactly(rules: Rules)
    ensures AlwaysComplete(rules) <==> rules == AS_COMMENTED
  {
    if rules == AS_COMMENTED {
      forall n: nat, run, acts | IsRun(rules, n, run, acts) ensures LeadersComplete(run) {
        LeaderCompleteness(n, run, acts);
      }
    } else {
      var n, run, acts := AnyBrokenRuleBreaks(rules);
    }
  }
}
