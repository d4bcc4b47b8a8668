/** How the flags of a record hang together in every run. */
module Flags {
  import opened Records
  import opened Machine

  predicate Coherent(st: State) {
    && (forall s | 0 <= s < |st.sockets| :: SocketCoherent(st.sockets[s]))
    && (forall v | 0 <= v < |st.servers| :: ServerCoherent(st.servers[v]))
  }

  lemma ActIsCoherent(st: State, pc: Pc, c: Choice)
    requires Coherent(st) && Exists(st, SocketOf(pc), ServerOf(pc)) && Act(st, pc, c).Move?
    ensures var action := Act(st, pc, c).action;
            && ((action.AddSocket? || action.SetSocket?) ==> SocketCoherent(action.socket))
            && ((action.AddServer? || action.SetServer?) ==> ServerCoherent(action.server))
  {
  }

  /** In every reachable state, a destroy racing a connect included. */
  lemma {:induction false} FlagCoherence(steps: seq<Step>)
    ensures Coherent(Reached(steps))
  {
    if steps == [] {
    } else {
      var st, step := Reached(steps[..|steps| - 1]), steps[|steps| - 1];
      FlagCoherence(steps[..|steps| - 1]);
      if step.Advance? && Runnable(st, step.t) && Act(st, st.threads[step.t].pc, step.choice).Move? {
        ActIsCoherent(st, st.threads[step.t].pc, step.choice);
      }
    }
  }
}
