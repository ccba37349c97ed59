/**
 * How many interactively supplied arguments a button command asks for: the
 * markers %v1%, %v2%, ... are looked up in order and the first one missing
 * ends the count.
 */
module CommandVariables {
  import opened Wrappers
  import opened Text

  /** Markers %v1% .. %vn% all occur in command. */
  predicate AllMarkers(command: string, n: nat) {
    forall k :: 1 <= k <= n ==> Contains(command, Marker(k))
  }

  /** n is the number of command variables of command: markers 1..n occur and marker n+1 does not. */
  predicate IsVariableCount(command: string, n: nat): (b: bool)
    ensures b ==> n <= |command| && !AllMarkers(command, n + 1)
  {
    if AllMarkers(command, n) then
      MarkerCountBound(command, n);
      !Contains(command, Marker(n + 1))
    else
      false
  }

  /** Java's hasCommandVariables on a possibly null command. */
  function HasVariables(command: Option<string>): (b: bool)
    ensures b <==> command.Some? && AllMarkers(command.value, 1)
    ensures b ==> |command.value| >= 4
  {
    assert Marker(1) == "%v1%";
    command.Some? && Contains(command.value, "%v1%")
  }

  /** Some position at which marker k starts in command. */
  ghost function MarkerPosition(command: string, k: nat): (at: int)
    requires Contains(command, Marker(k))
    ensures OccursAt(command, Marker(k), at) && 0 <= at < |command|
  {
    var at :| 0 <= at <= |command| - |Marker(k)| && OccursAt(command, Marker(k), at); at
  }

  ghost function MarkerPositions(command: string, n: nat): set<int>
    requires AllMarkers(command, n)
  {
    set k | 1 <= k <= n :: MarkerPosition(command, k)
  }

  /** Each further marker adds its own position to the set. */
  lemma MarkerPositionsStep(command: string, n: nat)
    requires 0 < n && AllMarkers(command, n)
    ensures MarkerPositions(command, n) == MarkerPositions(command, n - 1) + {MarkerPosition(command, n)}
  {
    var before, at := MarkerPositions(command, n - 1), MarkerPosition(command, n);
    forall p | p in MarkerPositions(command, n)
      ensures p in before + {at}
    {
      var k :| 1 <= k <= n && MarkerPosition(command, k) == p;
      if k < n {
        assert p in before;
      }
    }
    forall p | p in before
      ensures p in MarkerPositions(command, n)
    {
      var k :| 1 <= k <= n - 1 && MarkerPosition(command, k) == p;
    }
  }

  /** Marker n does not start where any of markers 1..n-1 starts. */
  lemma MarkerPositionFresh(command: string, n: nat)
    requires 0 < n && AllMarkers(command, n)
    ensures MarkerPosition(command, n) !in MarkerPositions(command, n - 1)
  {
    var at := MarkerPosition(command, n);
    if at in MarkerPositions(command, n - 1) {
      var k :| 1 <= k <= n - 1 && MarkerPosition(command, k) == at;
      MarkersStartApart(command, at, k, n);
    }
  }

  /** Markers 1..n start at n pairwise different positions. */
  lemma {:induction false} MarkerPositionsCount(command: string, n: nat)
    requires AllMarkers(command, n)
    ensures |MarkerPositions(command, n)| == n
  {
    if n > 0 {
      MarkerPositionsCount(command, n - 1);
      MarkerPositionsStep(command, n);
      MarkerPositionFresh(command, n);
    } else {
      assert MarkerPositions(command, n) == {};
    }
  }

  /** The count can never exceed the length of the command. */
  lemma MarkerCountBound(command: string, n: nat)
    requires AllMarkers(command, n)
    ensures n <= |command|
  {
    MarkerPositionsCount(command, n);
    assert forall at :: at in MarkerPositions(command, n) ==> 0 <= at < |command|;
    PositionsBound(MarkerPositions(command, n), |command|);
  }

  /** The count is the largest n for which markers 1..n all occur. */
  lemma CountIsLargest(command: string, n: nat, m: nat)
    requires IsVariableCount(command, n)
    ensures AllMarkers(command, m) <==> m <= n
  {
  }

  /** A command has exactly one variable count. */
  lemma CountUnique(command: string, n: nat, m: nat)
    requires IsVariableCount(command, n) && IsVariableCount(command, m)
    ensures n == m
  {
    CountIsLargest(command, n, m);
    CountIsLargest(command, m, n);
  }

  /** A missing marker stops the count before it, whatever markers follow it. */
  lemma CountStopsAtGap(command: string, n: nat, k: nat)
    requires IsVariableCount(command, n)
    requires 1 <= k && !Contains(command, Marker(k))
    ensures n < k
  {
  }

  /** The command "%v1% %v3%" has one variable: the gap at %v2% ends the count. */
  lemma GapExample()
    ensures IsVariableCount("%v1% %v3%", 1)
  {
    var command := "%v1% %v3%";
    assert Marker(1) == "%v1%" && Marker(2) == "%v2%";
    assert OccursAt(command, Marker(1), 0);
    forall at | 0 <= at <= |command| - 4
      ensures !OccursAt(command, Marker(2), at)
    {
      // the digit 2 does not occur in the command at all
      assert command[at + 2] != '2';
      assert command[at..at + 4][2] != "%v2%"[2];
    }
  }

  /** The command "%v1%" has one variable. */
  lemma SingleMarkerExample()
    ensures IsVariableCount("%v1%", 1)
  {
    var command := "%v1%";
    assert Marker(1) == "%v1%" && Marker(2) == "%v2%";
    assert OccursAt(command, Marker(1), 0);
    assert command[0..4][2] != Marker(2)[2];
  }

  /** hasCommandVariables holds exactly when the count is at least one. */
  lemma HasVariablesIffCount(command: string, n: nat)
    requires IsVariableCount(command, n)
    ensures HasVariables(Some(command)) <==> n >= 1
  {
    assert Marker(1) == "%v1%";
  }

  /** List.get failing on a 0-based index outside the list. */
  datatype IndexError = IndexOutOfBounds(index: int, size: nat)

  /** getVariableMessage: the prompt for variable i, counted from 1. */
  function VariableMessage(messages: seq<string>, i: int): (r: Result<string, IndexError>)
    ensures r.Success? <==> 1 <= i <= |messages|
    ensures r.Success? ==> r.value == messages[i - 1]
    ensures r.Failure? ==> r.error == IndexOutOfBounds(i - 1, |messages|)
  {
    if 1 <= i <= |messages| then Success(messages[i - 1]) else Failure(IndexOutOfBounds(i - 1, |messages|))
  }
}
