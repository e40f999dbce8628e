/**
 Scoring tables of the eco-score forms.

 Every variant keeps its scoring policy in dictionaries from an answer label
 to a point value, and reads them in one of two ways: `table.get(answer, d)`,
 which yields `d` for a label the table does not hold, or `table[answer]`,
 which raises `KeyError`. Both readings are one function here, `Lookup`,
 selected by an `Access` mode.
 */
module Tables {

  /** A scoring table: answer label to points. */
  type Table = map<string, int>

  /** The exception a strict dictionary read raises, carrying the missing key. */
  datatype KeyError = KeyError(key: string)

  /** The outcome of a computation that may raise `KeyError`. */
  datatype Result<+T> = Ok(value: T) | Err(error: KeyError) {
    predicate IsFailure() { Err? }

    function PropagateFailure<U>(): Result<U>
      requires Err?
    {
      Err(error)
    }

    function Extract(): T
      requires Ok?
    {
      value
    }
  }

  /** How a table is read: `.get(key, default)` or `[key]`. */
  datatype Access = WithDefault(default: int) | Strict

  /** Reads `key` from `t` the way the chosen access does. A defaulted read
      never fails; a strict one fails exactly on an absent key, naming it. */
  function Lookup(t: Table, key: string, access: Access): (r: Result<int>)
    ensures key in t ==> r == Ok(t[key])
    ensures key !in t && access.WithDefault? ==> r == Ok(access.default)
    ensures r.Err? <==> key !in t && access.Strict?
    ensures r.Err? ==> r.error == KeyError(key)
  {
    if key in t then Ok(t[key])
    else match access
      case WithDefault(d) => Ok(d)
      case Strict => Err(KeyError(key))
  }

  /** Every label of an option list is a key of the table. */
  predicate Covers(t: Table, options: seq<string>) {
    forall i :: 0 <= i < |options| ==> options[i] in t
  }

  /** The largest number of points any listed option is worth. */
  function MaxOver(t: Table, options: seq<string>): (m: int)
    requires |options| > 0 && Covers(t, options)
    ensures forall i :: 0 <= i < |options| ==> t[options[i]] <= m
    ensures exists i :: 0 <= i < |options| && t[options[i]] == m
  {
    if |options| == 1 then t[options[0]]
    else
      var rest := MaxOver(t, options[1..]);
      assert forall i :: 1 <= i < |options| ==> options[i] == options[1..][i - 1];
      if t[options[0]] >= rest then t[options[0]] else rest
  }

  /** The smallest number of points any listed option is worth. */
  function MinOver(t: Table, options: seq<string>): (m: int)
    requires |options| > 0 && Covers(t, options)
    ensures forall i :: 0 <= i < |options| ==> m <= t[options[i]]
    ensures exists i :: 0 <= i < |options| && t[options[i]] == m
  {
    if |options| == 1 then t[options[0]]
    else
      var rest := MinOver(t, options[1..]);
      assert forall i :: 1 <= i < |options| ==> options[i] == options[1..][i - 1];
      if t[options[0]] <= rest then t[options[0]] else rest
  }

  /** An option no other beats is where the maximum is reached. */
  lemma MaxOverIs(t: Table, options: seq<string>, k: nat)
    requires k < |options| && Covers(t, options)
    requires forall i :: 0 <= i < |options| ==> t[options[i]] <= t[options[k]]
    ensures MaxOver(t, options) == t[options[k]]
  {
  }

  /** An option no other undercuts is where the minimum is reached. */
  lemma MinOverIs(t: Table, options: seq<string>, k: nat)
    requires k < |options| && Covers(t, options)
    requires forall i :: 0 <= i < |options| ==> t[options[k]] <= t[options[i]]
    ensures MinOver(t, options) == t[options[k]]
  {
  }

  /** Which way the points run along an option list. */
  datatype Direction = Ascending | Descending

  predicate InOrder(a: int, b: int, dir: Direction) {
    match dir
    case Ascending => a <= b
    case Descending => a >= b
  }

  /** The points never move against `dir` as one goes down the option list. */
  predicate Ordered(t: Table, options: seq<string>, dir: Direction)
    requires Covers(t, options)
  {
    forall i, j :: 0 <= i <= j < |options| ==> InOrder(t[options[i]], t[options[j]], dir)
  }

  /** Neighbouring options in order suffice for the whole list to be in order. */
  lemma {:induction false} NeighboursOrdered(t: Table, options: seq<string>, dir: Direction)
    requires Covers(t, options)
    requires forall i :: 0 <= i < |options| - 1 ==> InOrder(t[options[i]], t[options[i + 1]], dir)
    ensures Ordered(t, options, dir)
  {
    forall i, j | 0 <= i <= j < |options|
      ensures InOrder(t[options[i]], t[options[j]], dir)
    {
      var k := i;
      while k < j
        invariant i <= k <= j
        invariant InOrder(t[options[i]], t[options[k]], dir)
      {
        k := k + 1;
      }
    }
  }
}
