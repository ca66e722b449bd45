// Induction over runs: what holds at the start, and is kept by the host's requests and by
// every cycle, holds at the end of every run.
module Runs {
  import opened Wrappers
  import opened SystemConfiguration
  import opened Channel
  import opened ChannelSafety

  // One cycle of a run.
  ghost predicate Cycle(c: Config, s: ChannelState, s': ChannelState) {
    c.Valid() && WellFormed(c, s) && Safe(c, s) && Update(c, s) == Ok(s')
  }

  // The host has added transactions, and nothing else has changed.
  ghost predicate Requested(c: Config, s: ChannelState, s': ChannelState) {
    && WellFormed(c, s) && WellFormed(c, s')
    && s' == s.(mc := s.mc.(transactionQueue := s'.mc.transactionQueue), pending := s'.pending)
  }

  lemma {:induction false} AddAllOnlyRequests(c: Config, s: ChannelState, trs: seq<Transaction>)
    requires WellFormed(c, s)
    ensures Requested(c, s, AddAll(c, s, trs))
    decreases trs
  {
    hide WellFormed;
    if trs != [] {
      AddAllOnlyRequests(c, AddTransaction(c, s, trs[0]), trs[1..]);
    }
  }

  // Also when what is kept depends on the requests that are still to come.
  lemma {:induction false} RunKeepsAhead(c: Config, inv: (ChannelState, seq<seq<Transaction>>) -> bool, s: ChannelState,
                                         requests: seq<seq<Transaction>>)
    requires c.Valid() && WellFormed(c, s) && Safe(c, s) && Run(c, s, requests).Ok? && inv(s, requests)
    requires forall s, s', ahead | WellFormed(c, s) && ahead != [] && inv(s, ahead) && Cycle(c, AddAll(c, s, ahead[0]), s') ::
      inv(s', ahead[1..])
    ensures inv(Run(c, s, requests).value, [])
    decreases requests
  {
    hide Safe, Update, AddAll, WellFormed;
    if requests != [] {
      var s1 := AddAll(c, s, requests[0]);
      AddAllKeeps(c, s, requests[0]);
      UpdateIsSafe(c, s1);
      assert Cycle(c, s1, Update(c, s1).value);
      RunKeepsAhead(c, inv, Update(c, s1).value, requests[1..]);
    }
  }

  lemma RunKeeps(c: Config, inv: ChannelState -> bool, requests: seq<seq<Transaction>>)
    requires c.Valid() && Run(c, Initial(c), requests).Ok? && inv(Initial(c))
    requires forall s, s' :: Requested(c, s, s') && inv(s) ==> inv(s')
    requires forall s, s' :: Cycle(c, s, s') && inv(s) ==> inv(s')
    ensures inv(Run(c, Initial(c), requests).value)
  {
    hide Safe, Update, AddAll, WellFormed, Run, Initial, Requested, Cycle;
    InitialIsSafe(c);
    var ahead := (s: ChannelState, left: seq<seq<Transaction>>) => inv(s);
    forall s, s', left | WellFormed(c, s) && left != [] && inv(s) && Cycle(c, AddAll(c, s, left[0]), s') ensures inv(s') {
      AddAllOnlyRequests(c, s, left[0]);
    }
    RunKeepsAhead(c, ahead, Initial(c), requests);
  }
}
