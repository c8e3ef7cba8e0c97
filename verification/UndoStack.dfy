/** The persisted undo stack of one session, and how its entries are loaded and retried. */
module UndoStack {
  import opened Types

  type UndoId = string

  /** One row: `maxRetries` is the stored 16-bit column, read back as an unsigned byte. */
  datatype UndoRow = UndoRow(position: nat, state: StepState, fnName: string, maxRetries: int)

  /** The compensation registry: the function names that resolve to an endpoint, and the default retry limit. */
  datatype Registry = Registry(endpoints: set<string>, defaultRetries: nat)

  /** Truncation to a byte comes first, so a stored multiple of 256 selects the default as zero does. */
  function RetryLimit(row: UndoRow, registry: Registry): nat {
    if row.maxRetries % 256 == 0 then registry.defaultRetries else row.maxRetries % 256
  }

  /** A result of the stack query: exactly the pending rows, highest position first, ties in any order. */
  ghost predicate IsLoadedStack(rows: map<UndoId, UndoRow>, stack: seq<UndoId>) {
    && (forall u :: u in stack <==> u in rows && rows[u].state.Pending?)
    && Distinct(stack)
    && forall i, j :: 0 <= i < j < |stack| ==> rows[stack[i]].position >= rows[stack[j]].position
  }

  ghost predicate DistinctPositions(rows: map<UndoId, UndoRow>) {
    forall u, v :: u in rows && v in rows && u != v ==> rows[u].position != rows[v].position
  }

  function IdempotencyKey(u: UndoId): string {
    "undo-" + u
  }

  lemma KeysAreDistinct(u: UndoId, v: UndoId)
    ensures IdempotencyKey(u) == IdempotencyKey(v) <==> u == v
  {
    assert IdempotencyKey(u)[5..] == u;
    assert IdempotencyKey(v)[5..] == v;
  }

  predicate IsSuccess(status: int) {
    200 <= status < 300
  }

  predicate IsPermanentClientError(status: int) {
    400 <= status < 500 && status != 429
  }

  /** With distinct positions the stack query has one result. */
  lemma {:induction false} LoadedStackIsUnique(rows: map<UndoId, UndoRow>, a: seq<UndoId>, b: seq<UndoId>)
    requires DistinctPositions(rows) && IsLoadedStack(rows, a) && IsLoadedStack(rows, b)
    ensures a == b
    decreases |a|
  {
    EmptyIffNonePending(rows, a);
    EmptyIffNonePending(rows, b);
    if a != [] {
      assert a[0] in a && a[0] in b;
      assert b[0] in b && b[0] in a;
      SameHead(rows, a, b);
      var rest := rows[a[0] := rows[a[0]].(state := StepState.Skipped)];
      TailIsLoaded(rows, a, StepState.Skipped);
      TailIsLoaded(rows, b, StepState.Skipped);
      LoadedStackIsUnique(rest, a[1..], b[1..]);
      assert a == [a[0]] + a[1..] && b == [b[0]] + b[1..];
    }
  }

  lemma EmptyIffNonePending(rows: map<UndoId, UndoRow>, stack: seq<UndoId>)
    requires IsLoadedStack(rows, stack)
    ensures stack == [] <==> forall u :: u in rows ==> !rows[u].state.Pending?
  {
    if stack != [] {
      assert stack[0] in stack;
    }
  }

  lemma SameHead(rows: map<UndoId, UndoRow>, a: seq<UndoId>, b: seq<UndoId>)
    requires DistinctPositions(rows) && IsLoadedStack(rows, a) && IsLoadedStack(rows, b)
    requires a != [] && b != [] && a[0] in b && b[0] in a
    ensures a[0] == b[0]
  {
    var i :| 0 <= i < |b| && b[i] == a[0];
    var j :| 0 <= j < |a| && a[j] == b[0];
  }

  /** Once its first entry is no longer pending, the rest of a loaded stack is what the query returns. */
  lemma TailIsLoaded(rows: map<UndoId, UndoRow>, stack: seq<UndoId>, state: StepState)
    requires IsLoadedStack(rows, stack) && stack != [] && !state.Pending?
    ensures stack[0] in rows
    ensures IsLoadedStack(rows[stack[0] := rows[stack[0]].(state := state)], stack[1..])
  {
    assert stack[0] in stack;
    assert forall u :: u in stack <==> u == stack[0] || u in stack[1..];
    assert stack[0] !in stack[1..];
  }

  ghost predicate Descending(rows: map<UndoId, UndoRow>, stack: seq<UndoId>) {
    && (forall u :: u in stack ==> u in rows)
    && forall i, j :: 0 <= i < j < |stack| ==> rows[stack[i]].position >= rows[stack[j]].position
  }

  /** Insertion behind every entry at the same or a higher position. */
  function InsertByPosition(rows: map<UndoId, UndoRow>, u: UndoId, stack: seq<UndoId>): seq<UndoId>
    requires u in rows && forall v :: v in stack ==> v in rows
  {
    if stack == [] then [u]
    else
      assert stack[0] in stack;
      if rows[stack[0]].position < rows[u].position then [u] + stack
      else [stack[0]] + InsertByPosition(rows, u, stack[1..])
  }

  lemma DescendingCons(rows: map<UndoId, UndoRow>, u: UndoId, stack: seq<UndoId>)
    requires u in rows && Descending(rows, stack)
    requires forall v :: v in stack ==> rows[v].position <= rows[u].position
    ensures Descending(rows, [u] + stack)
  {
  }

  lemma {:induction false} InsertAddsOne(rows: map<UndoId, UndoRow>, u: UndoId, stack: seq<UndoId>)
    requires u in rows && forall v :: v in stack ==> v in rows
    ensures var r := InsertByPosition(rows, u, stack);
            (forall v :: v in r <==> v in stack || v == u) && (u !in stack && Distinct(stack) ==> Distinct(r))
    decreases |stack|
  {
    if stack != [] {
      var head, tail := stack[0], stack[1..];
      assert head in stack && stack == [head] + tail;
      if !(rows[head].position < rows[u].position) {
        InsertAddsOne(rows, u, tail);
        if u !in stack && Distinct(stack) {
          assert head !in InsertByPosition(rows, u, tail);
        }
      }
    }
  }

  lemma HeadIsHighest(rows: map<UndoId, UndoRow>, head: UndoId, tail: seq<UndoId>)
    requires Descending(rows, [head] + tail)
    ensures head in rows && Descending(rows, tail) && forall v :: v in tail ==> rows[v].position <= rows[head].position
  {
    var stack := [head] + tail;
    assert stack[0] == head && forall i :: 0 <= i < |tail| ==> stack[i + 1] == tail[i];
    forall v | v in tail
      ensures v in rows && rows[v].position <= rows[head].position
    {
      var k :| 0 <= k < |tail| && tail[k] == v;
      assert stack[k + 1] == v;
    }
  }

  lemma {:induction false} InsertKeepsOrder(rows: map<UndoId, UndoRow>, u: UndoId, stack: seq<UndoId>)
    requires u in rows && Descending(rows, stack)
    ensures Descending(rows, InsertByPosition(rows, u, stack))
    decreases |stack|
  {
    if stack != [] {
      var head, tail := stack[0], stack[1..];
      assert stack == [head] + tail;
      HeadIsHighest(rows, head, tail);
      if rows[head].position < rows[u].position {
        assert forall v :: v in stack ==> v == head || v in tail;
        DescendingCons(rows, u, stack);
      } else {
        InsertKeepsOrder(rows, u, tail);
        InsertAddsOne(rows, u, tail);
        DescendingCons(rows, head, InsertByPosition(rows, u, tail));
      }
    }
  }
}
