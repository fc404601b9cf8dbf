// Runs of the system: sequences of enabled actions.
module Traces {
  import opened Submission

  // `actions` leads from `s` to `t`.
  ghost predicate Trace(s: System, actions: seq<Action>, t: System, overlap: Overlap)
    decreases |actions|
  {
    if actions == [] then s == t
    else Enabled(s, actions[0], overlap) && Trace(After(s, actions[0]), actions[1..], t, overlap)
  }

  ghost predicate Leads(s: System, t: System, overlap: Overlap) {
    exists actions :: Trace(s, actions, t, overlap)
  }

  // Reached from empty tables by any interleaving of calls, runs, crashes and
  // network events in which settlement runs overlap no further than this.
  ghost predicate Reachable(t: System, overlap: Overlap) {
    Leads(INITIAL, t, overlap)
  }

  lemma Here(s: System, overlap: Overlap)
    ensures Leads(s, s, overlap)
  {
    assert Trace(s, [], s, overlap);
  }

  lemma Prepend(s: System, action: Action, t: System, overlap: Overlap)
    requires Enabled(s, action, overlap) && Leads(After(s, action), t, overlap)
    ensures Leads(s, t, overlap)
  {
    hide After;
    var actions :| Trace(After(s, action), actions, t, overlap);
    assert ([action] + actions)[1..] == actions;
    assert Trace(s, [action] + actions, t, overlap);
  }

  lemma {:induction false} TraceJoins(s: System, before: seq<Action>, m: System, after: seq<Action>, t: System, overlap: Overlap)
    requires Trace(s, before, m, overlap) && Trace(m, after, t, overlap)
    ensures Trace(s, before + after, t, overlap)
    decreases |before|
  {
    hide After;
    if before == [] {
      assert before + after == after;
    } else {
      assert (before + after)[1..] == before[1..] + after;
      TraceJoins(After(s, before[0]), before[1..], m, after, t, overlap);
    }
  }

  lemma Joined(s: System, m: System, t: System, overlap: Overlap)
    requires Leads(s, m, overlap) && Leads(m, t, overlap)
    ensures Leads(s, t, overlap)
  {
    hide After;
    var before :| Trace(s, before, m, overlap);
    var after :| Trace(m, after, t, overlap);
    TraceJoins(s, before, m, after, t, overlap);
  }

  lemma Extend(s: System, m: System, action: Action, overlap: Overlap)
    requires Leads(s, m, overlap) && Enabled(m, action, overlap)
    ensures Leads(s, After(m, action), overlap)
  {
    hide After;
    Here(After(m, action), overlap);
    Prepend(m, action, After(m, action), overlap);
    Joined(s, m, After(m, action), overlap);
  }
}
