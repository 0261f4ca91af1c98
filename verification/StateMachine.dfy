/** The payment automaton of state_machine.py: twelve states, the transition
    table, and the worklist that computes the states reachable from a start. */
module StateMachine {

  datatype State =
    | Draft | Submitted | Quoted | Prepared | Approved | Executing
    | Settled | Failed | Rejected | Expired | Cancelled
    | ReconciliationRequired

  datatype Trigger =
    | OnSubmit | OnQuoteReceived | OnPrepared | OnApproved | OnExecuting | OnSettled
    | OnCancel | OnRejected | OnExpired | OnAdapterError
    | OnReceiptReceived | OnConfirmSettled

  datatype Lookup = NoEdge | To(next: State)

  /** The result of a transition request; on refusal `state` is the current state. */
  datatype TransitionResult = TransitionResult(ok: bool, state: State)

  /** TRANSITIONS, as a partial function. */
  function Table(s: State, t: Trigger): Lookup {
    match (s, t)
    // Happy path
    case (Draft, OnSubmit) => To(Submitted)
    case (Submitted, OnQuoteReceived) => To(Quoted)
    case (Quoted, OnPrepared) => To(Prepared)
    case (Prepared, OnApproved) => To(Approved)
    case (Approved, OnExecuting) => To(Executing)
    case (Executing, OnSettled) => To(Settled)
    // Cancellation, only before approval
    case (Draft, OnCancel) => To(Cancelled)
    case (Submitted, OnCancel) => To(Cancelled)
    case (Quoted, OnCancel) => To(Cancelled)
    case (Prepared, OnCancel) => To(Cancelled)
    // Rejection
    case (Submitted, OnRejected) => To(Rejected)
    case (Quoted, OnRejected) => To(Rejected)
    case (Prepared, OnRejected) => To(Rejected)
    case (Approved, OnRejected) => To(Rejected)
    // Expiry
    case (Submitted, OnExpired) => To(Expired)
    case (Quoted, OnExpired) => To(Expired)
    case (Prepared, OnExpired) => To(Expired)
    case (Approved, OnExpired) => To(Expired)
    case (Executing, OnExpired) => To(ReconciliationRequired)
    // Adapter failure
    case (Quoted, OnAdapterError) => To(Failed)
    case (Prepared, OnAdapterError) => To(Failed)
    case (Approved, OnAdapterError) => To(Failed)
    case (Executing, OnAdapterError) => To(ReconciliationRequired)
    // Settlement evidence
    case (Executing, OnReceiptReceived) => To(Settled)
    case (ReconciliationRequired, OnReceiptReceived) => To(Settled)
    case (ReconciliationRequired, OnConfirmSettled) => To(Settled)
    case _ => NoEdge
  }

  predicate Terminal(s: State) {
    s == Settled || s == Failed || s == Rejected || s == Expired || s == Cancelled
  }

  function Transition(s: State, t: Trigger): TransitionResult {
    if Terminal(s) then TransitionResult(false, s)
    else match Table(s, t)
      case NoEdge => TransitionResult(false, s)
      case To(n) => TransitionResult(true, n)
  }

  /** Some trigger leads from `s` to `n`. */
  ghost predicate Edge(s: State, n: State) {
    exists t :: Table(s, t) == To(n)
  }

  /** States from which the intent was handed to the adapter. */
  predicate Dispatched(s: State) {
    s == Executing || s == ReconciliationRequired || s == Settled
  }

  /** Height in the automaton; the longest path has seven edges. */
  function Rank(s: State): (r: nat)
    ensures r <= 7
  {
    match s
    case Draft => 0
    case Submitted => 1
    case Quoted => 2
    case Prepared => 3
    case Approved => 4
    case Executing => 5
    case ReconciliationRequired => 6
    case _ => 7
  }

  /** Every edge climbs, so the automaton has no cycle. */
  lemma EdgesClimb(s: State, n: State)
    requires Edge(s, n)
    ensures Rank(s) < Rank(n)
  {
    var t :| Table(s, t) == To(n);
  }

  /** The terminal test in front of the lookup refuses nothing the table would
      allow: the terminal states are exactly the states without an outgoing
      edge, and a request succeeds exactly along a table edge. */
  lemma TerminalMeansStuck(s: State)
    ensures Terminal(s) <==> forall n :: !Edge(s, n)
    ensures forall t :: Transition(s, t).ok <==> Table(s, t).To?
    ensures forall t :: Transition(s, t).ok ==> Edge(s, Transition(s, t).state)
  {
    if !Terminal(s) {
      var t := match s
        case Draft => OnSubmit
        case Submitted => OnQuoteReceived
        case Quoted => OnPrepared
        case Prepared => OnApproved
        case Approved => OnExecuting
        case Executing => OnSettled
        case _ => OnConfirmSettled;
      assert Table(s, t) == To(Table(s, t).next);
      assert Edge(s, Table(s, t).next);
    }
    forall t | Transition(s, t).ok ensures Edge(s, Transition(s, t).state) {
      assert Table(s, t) == To(Transition(s, t).state);
    }
  }

  /** Once handed to the adapter, no edge leads anywhere else. */
  lemma DispatchedIsClosed(s: State, n: State)
    requires Edge(s, n) && Dispatched(s)
    ensures Dispatched(n)
  {
    var t :| Table(s, t) == To(n);
  }

  // ------------------------------------------------------------------
  // reachable_states, for any finite transition table
  // ------------------------------------------------------------------

  /** One table row: from state, trigger, to state. */
  datatype Row<S, T> = Row(cur: S, trig: T, nxt: S)

  ghost predicate HasEdge<S, T(!new)>(table: seq<Row<S, T>>, a: S, b: S) {
    exists i :: 0 <= i < |table| && table[i].cur == a && table[i].nxt == b
  }

  ghost predicate IsPath<S(!new), T(!new)>(table: seq<Row<S, T>>, start: S, path: seq<S>, end: S) {
    && |path| > 0 && path[0] == start && path[|path| - 1] == end
    && forall i :: 0 <= i < |path| - 1 ==> HasEdge(table, path[i], path[i + 1])
  }

  ghost predicate Reachable<S(!new), T(!new)>(table: seq<Row<S, T>>, start: S, s: S) {
    exists path :: IsPath(table, start, path, s)
  }

  /** A set that holds the start and is closed under edges holds every
      reachable state. */
  lemma {:induction false} ClosedHoldsPath<S(!new), T(!new)>(table: seq<Row<S, T>>, start: S, path: seq<S>, end: S, closed: set<S>)
    requires IsPath(table, start, path, end)
    requires start in closed
    requires forall i :: 0 <= i < |table| && table[i].cur in closed ==> table[i].nxt in closed
    ensures end in closed
    decreases |path|
  {
    if |path| > 1 {
      var front := path[..|path| - 1];
      var prev := front[|front| - 1];
      assert IsPath(table, start, front, prev) by {
        forall i | 0 <= i < |front| - 1 ensures HasEdge(table, front[i], front[i + 1]) {
          assert HasEdge(table, path[i], path[i + 1]);
        }
      }
      ClosedHoldsPath(table, start, front, prev, closed);
      assert HasEdge(table, path[|path| - 2], path[|path| - 1]);
    }
  }

  lemma ExtendPath<S(!new), T(!new)>(table: seq<Row<S, T>>, start: S, s: S, n: S)
    requires Reachable(table, start, s) && HasEdge(table, s, n)
    ensures Reachable(table, start, n)
  {
    var path :| IsPath(table, start, path, s);
    var longer := path + [n];
    forall i | 0 <= i < |longer| - 1 ensures HasEdge(table, longer[i], longer[i + 1]) {
      if i < |path| - 1 { assert HasEdge(table, path[i], path[i + 1]); }
    }
    assert IsPath(table, start, longer, n);
  }

  /** The worklist returns exactly the states on some path from `start`. */
  method ReachableStates<S(==, !new), T(!new)>(table: seq<Row<S, T>>, start: S) returns (visited: set<S>)
    ensures forall s :: s in visited <==> Reachable(table, start, s)
  {
    visited := {};
    var frontier := {start};
    ghost var universe := {start} + set i | 0 <= i < |table| :: table[i].nxt;
    assert IsPath(table, start, [start], start);
    while frontier != {}
      invariant visited <= universe && frontier <= universe
      invariant start in visited + frontier
      invariant forall s :: s in visited + frontier ==> Reachable(table, start, s)
      invariant forall i :: 0 <= i < |table| && table[i].cur in visited ==> table[i].nxt in visited + frontier
      decreases universe - visited, frontier
    {
      var s :| s in frontier;
      frontier := frontier - {s};
      if s !in visited {
        visited := visited + {s};
        ghost var waiting := frontier;
        for k := 0 to |table|
          invariant waiting <= frontier <= universe
          invariant forall x :: x in frontier ==> Reachable(table, start, x)
          invariant forall i :: 0 <= i < k && table[i].cur == s ==> table[i].nxt in frontier
        {
          if table[k].cur == s {
            ExtendPath(table, start, s, table[k].nxt);
            frontier := frontier + {table[k].nxt};
          }
        }
      }
    }
    forall s | Reachable(table, start, s) ensures s in visited {
      var path :| IsPath(table, start, path, s);
      ClosedHoldsPath(table, start, path, s, visited);
    }
  }
}
