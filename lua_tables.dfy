/**
 * The binding's marshalling between Lua tables and C integer arrays. A Lua
 * table of integers is a map from keys to integers; a key that is absent
 * holds nil.
 */
module LuaTables {
  import opened Wrappers
  import opened Errors

  /** The integers at keys 1..n of `t`, in order, as a loop that reads them
      one by one with `luaL_checkinteger` sees them: the first key that holds
      nil raises an error and nothing after it is read. */
  function Gather(t: map<int, int>, n: nat): (r: Result<seq<int>, Error>)
    ensures r.Success? <==> forall k :: 1 <= k <= n ==> k in t
    ensures r.Success? ==> |r.value| == n && forall i :: 0 <= i < n ==> r.value[i] == t[i + 1]
    ensures r.Failure? ==> r.error.IntegerExpected? && 1 <= r.error.key <= n && r.error.key !in t
    ensures r.Failure? ==> forall k :: 1 <= k < r.error.key ==> k in t
  {
    if n == 0 then Success([])
    else
      var prefix := Gather(t, n - 1);
      if prefix.Failure? then prefix
      else if n in t then Success(prefix.value + [t[n]])
      else Failure(IntegerExpected(n))
  }

  /** Once a key in 1..m holds nil, reading further keys changes nothing. */
  lemma {:induction false} GatherFailureSticks(t: map<int, int>, m: nat, n: nat)
    requires m <= n
    requires Gather(t, m).Failure?
    ensures Gather(t, n) == Gather(t, m)
  {
    if m < n {
      GatherFailureSticks(t, m, n - 1);
    }
  }

  /** Entries outside keys 1..n are ignored. */
  lemma {:induction false} GatherIgnoresOtherKeys(t: map<int, int>, u: map<int, int>, n: nat)
    requires forall k :: 1 <= k <= n ==> (k in t <==> k in u)
    requires forall k :: 1 <= k <= n && k in t ==> t[k] == u[k]
    ensures Gather(t, n) == Gather(u, n)
  {
    if n > 0 {
      GatherIgnoresOtherKeys(t, u, n - 1);
    }
  }

  /** The copy loop of `chip:get_lines`, `bulk:request_output` and
      `bulk:set_values`: reads keys 1..n of `t` into an array. */
  method ReadIntegers(t: map<int, int>, n: nat) returns (r: Result<seq<int>, Error>)
    ensures r == Gather(t, n)
  {
    var values: seq<int> := [];
    var i := 0;
    while i < n
      invariant 0 <= i <= n
      invariant Gather(t, i) == Success(values)
    {
      if i + 1 !in t {
        GatherFailureSticks(t, i + 1, n);
        return Failure(IntegerExpected(i + 1));
      }
      values := values + [t[i + 1]];
      i := i + 1;
    }
    return Success(values);
  }

  /** The table `bulk:get_values` returns: `values[i]` at key i + 1. */
  function ValuesTable(values: seq<int>): (t: map<int, int>)
    ensures forall k :: k in t <==> 1 <= k <= |values|
    ensures forall i :: 0 <= i < |values| ==> t[i + 1] == values[i]
  {
    if values == [] then map[]
    else ValuesTable(values[..|values| - 1])[|values| := values[|values| - 1]]
  }

  /** The loop of `bulk:get_values` that stores each value at its 1-based key. */
  method BuildValuesTable(values: seq<int>) returns (t: map<int, int>)
    ensures t == ValuesTable(values)
  {
    t := map[];
    var i := 0;
    while i < |values|
      invariant 0 <= i <= |values|
      invariant t == ValuesTable(values[..i])
    {
      t := t[i + 1 := values[i]];
      i := i + 1;
      assert values[..i][..i - 1] == values[..i - 1];
    }
    assert values[..i] == values;
  }

  /** A table that `bulk:get_values` returns is read back by
      `bulk:set_values` as the same values in the same order. */
  lemma {:induction false} GatherValuesTable(values: seq<int>)
    ensures Gather(ValuesTable(values), |values|) == Success(values)
  {
    var t := ValuesTable(values);
    var n := |values|;
    if n > 0 {
      var init := values[..n - 1];
      GatherValuesTable(init);
      GatherIgnoresOtherKeys(t, ValuesTable(init), n - 1);
      assert init + [values[n - 1]] == values;
    }
  }
}
