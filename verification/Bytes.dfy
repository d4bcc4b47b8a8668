/** `bytes_read` against the data jobs, over every interleaving. */
module Bytes {
  import opened Base
  import opened Machine

  function DataEntry(s: nat): Entry -> nat {
    (e: Entry) => if e.job.Data? && e.job.s == s then e.job.count else 0
  }

  /** A chunk that has been counted but not yet pushed. */
  function InHand(s: nat): Thread -> nat {
    (th: Thread) => if th.pc.Push? && th.pc.s == s then th.pc.count else 0
  }

  function BytesRead(st: State, s: nat): nat {
    if s < |st.sockets| then st.sockets[s].bytesRead else 0
  }

  predicate BytesMatch(st: State, s: nat) {
    BytesRead(st, s) == Sum(st.log, DataEntry(s)) + Sum(st.threads, InHand(s))
  }

  predicate ReadsProperly(st: State, pc: Pc, pc': Pc, action: Action, s: nat) {
    && (if action.Enqueue? && action.job.Data? && action.job.s == s
        then pc == Push(s, action.job.count) else !(pc.Push? && pc.s == s))
    && (action.Spawn? ==> !action.thread.pc.Push?)
    && (action.AddSocket? ==> action.socket.bytesRead == 0)
    && (if action.SetSocket? && action.s == s then
          s < |st.sockets| && action.socket.bytesRead
          == st.sockets[s].bytesRead + if pc'.Push? && pc'.s == s then pc'.count else 0
        else !(pc'.Push? && pc'.s == s))
  }

  lemma ActReadsProperly(st: State, pc: Pc, c: Choice, s: nat)
    requires Exists(st, SocketOf(pc), ServerOf(pc)) && Act(st, pc, c).Move?
    ensures ReadsProperly(st, pc, Act(st, pc, c).pc, Act(st, pc, c).action, s)
  {
    if pc.Read? || pc.Push? {
    } else if ServerOf(pc).Some? {
    } else {
    }
  }

  lemma BytesReadPerform(st: State, t: nat, pc: Pc, action: Action, s: nat)
    requires t < |st.threads| && ReadsProperly(st, st.threads[t].pc, pc, action, s)
    ensures BytesRead(Perform(Moved(st, t, pc), t, action), s)
            == BytesRead(st, s) + if pc.Push? && pc.s == s then pc.count else 0
  {
  }

  lemma BytesMatchPerform(st: State, t: nat, pc: Pc, action: Action, s: nat)
    requires BytesMatch(st, s) && t < |st.threads|
    requires ReadsProperly(st, st.threads[t].pc, pc, action, s)
    ensures BytesMatch(Perform(Moved(st, t, pc), t, action), s)
  {
    BytesReadPerform(st, t, pc, action, s);
    PerformTally(st, t, pc, action, DataEntry(s), InHand(s));
  }

  lemma BytesMatchAdvance(st: State, t: nat, c: Choice, s: nat)
    requires BytesMatch(st, s)
    ensures BytesMatch(Next(st, Advance(t, c)), s)
  {
    if Runnable(st, t) && Act(st, st.threads[t].pc, c).Move? {
      ActReadsProperly(st, st.threads[t].pc, c, s);
      BytesMatchPerform(st, t, Act(st, st.threads[t].pc, c).pc, Act(st, st.threads[t].pc, c).action, s);
    }
  }

  /** Every byte a socket counts is in a data job or in the hands of its read loop. */
  lemma {:induction false} ByteConservation(steps: seq<Step>, s: nat)
    ensures BytesMatch(Reached(steps), s)
  {
    if steps == [] {
    } else {
      var st, step := Reached(steps[..|steps| - 1]), steps[|steps| - 1];
      ByteConservation(steps[..|steps| - 1], s);
      if step.Advance? { BytesMatchAdvance(st, step.t, step.choice, s); }
      else { OtherTally(st, step, DataEntry(s), InHand(s)); }
    }
  }
}
