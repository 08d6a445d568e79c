/** How one menu operation ends, and what it leaves behind: the calls it
    made on the connection, in order, and the number of input lines it
    consumed. */
module Outcomes {
  import opened Common
  import opened Validator
  import opened Backend
  import opened Existence

  /** - `Done`: the operation's final query or statement was sent, and (for
        a statement) it executed;
      - `Refused`: the role gate turned the session away before any input;
      - `NotOwner`: the store belongs to another manager;
      - `Invalid`: an input failed its check;
      - `NoChange`: every new value was "-", so nothing was sent;
      - `Cancelled`: the operator chose to go back;
      - `Failed`: an exception was caught (a failed statement, a lookup
        with no row, a number that does not parse, or no more input). */
  datatype Outcome = Done | Refused | NotOwner | Invalid | NoChange | Cancelled | Failed

  datatype Run = Run(outcome: Outcome, calls: seq<Call>, consumed: nat)

  /** What follows a head that let the operation go on: the head's calls and
      consumed lines come first. */
  function After(calls: seq<Call>, consumed: nat, r: Run): Run
  {
    Run(r.outcome, calls + r.calls, consumed + r.consumed)
  }

  /** The calls `valid_storeID` makes: a lookup only for an integer numeral. */
  function StoreCheckCalls(store: string): seq<Call>
  {
    if IsNumeral(store, true) then [Query(StoreLookup(store))] else []
  }

  /** The store-or-"-" check `!valid_storeID(s) && !s.equals("-")`. */
  predicate StoreOrAll(answer: string -> Answer, store: string)
  {
    store == Dash || StoreExists(answer, store)
  }

  /** The statements among some calls. */
  function Updates(calls: seq<Call>): (us: seq<string>)
    ensures |us| <= |calls|
  {
    if calls == [] then []
    else (if calls[0].Update? then [calls[0].text] else []) + Updates(calls[1..])
  }

  /** Only queries: nothing is written. */
  lemma {:induction false} QueriesWriteNothing(calls: seq<Call>)
    requires forall i :: 0 <= i < |calls| ==> calls[i].Query?
    ensures Updates(calls) == []
  {
    if calls != [] {
      QueriesWriteNothing(calls[1..]);
    }
  }

  lemma {:induction false} UpdatesAppend(a: seq<Call>, b: seq<Call>)
    ensures Updates(a + b) == Updates(a) + Updates(b)
  {
    if a == [] {
      assert a + b == b;
    } else {
      var head := if a[0].Update? then [a[0].text] else [];
      assert (a + b)[0] == a[0];
      assert (a + b)[1..] == a[1..] + b;
      UpdatesAppend(a[1..], b);
      assert Updates(a + b) == head + Updates(a[1..] + b);
      assert head + (Updates(a[1..]) + Updates(b)) == (head + Updates(a[1..])) + Updates(b);
    }
  }

  /** The calls of `valid_storeID` write nothing. */
  lemma StoreCheckWritesNothing(store: string)
    ensures Updates(StoreCheckCalls(store)) == []
  {
    if IsNumeral(store, true) {
      assert [Query(StoreLookup(store))][1..] == [];
    }
  }
}
