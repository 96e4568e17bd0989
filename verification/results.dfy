/** The result buffer of a simulation: one row of state per time point and
    the time points themselves, pre-sized and zero-filled, with row 0 the
    system's initial state. */
module Results {
  import opened LinAlg

  /** The tabular view: state columns followed by a `time` column. */
  datatype Table = Table(header: seq<string>, rows: seq<seq<real>>)

  class Result {
    const dimState: nat
    /** The system's state_columns, one name per state entry. */
    const columns: seq<string>
    const times: array<real>
    const results: array<Vector>

    ghost predicate Valid()
      reads this, results
    {
      && times.Length == results.Length >= 1
      && forall k :: 0 <= k < results.Length ==> |results[k]| == dimState
    }

    /** Result.__init__: nbr_time_points rows of dim_state zeros and as many
        zero times, then row 0 overwritten by the system state. */
    constructor (nbrTimePoints: nat, systemState: Vector, columns: seq<string>)
      requires nbrTimePoints >= 1
      ensures Valid() && fresh(times) && fresh(results)
      ensures dimState == |systemState| && this.columns == columns
      ensures times.Length == nbrTimePoints
      ensures forall k :: 0 <= k < nbrTimePoints ==> times[k] == 0.0
      ensures results[0] == systemState
      ensures forall k :: 1 <= k < nbrTimePoints ==> results[k] == Zeros(|systemState|)
    {
      dimState := |systemState|;
      this.columns := columns;
      times := new real[nbrTimePoints](_ => 0.0);
      var rows := new Vector[nbrTimePoints](_ => Zeros(|systemState|));
      rows[0] := systemState;
      results := rows;
    }

    /** The row writes of the solver loop: times[k] and results[k]. */
    method Record(k: nat, time: real, state: Vector)
      requires Valid() && k < times.Length && |state| == dimState
      modifies times, results
      ensures Valid()
      ensures times[..] == old(times[..])[k := time]
      ensures results[..] == old(results[..])[k := state]
    {
      times[k] := time;
      results[k] := state;
    }

    /** Result.to_df: the state columns, then `time`; row k is results[k]
        followed by times[k]. pandas refuses a header whose length differs
        from the row width, hence the requirement on the column names. */
    function ToTable(): (t: Table)
      reads this, times, results
      requires Valid() && |columns| == dimState
      ensures t.header == columns + ["time"]
      ensures |t.rows| == times.Length
      ensures forall k :: 0 <= k < |t.rows| ==>
        |t.rows[k]| == dimState + 1 && t.rows[k][..dimState] == results[k] && t.rows[k][dimState] == times[k]
    {
      Table(columns + ["time"], seq(times.Length, k requires 0 <= k < times.Length reads times, results =>
        results[k] + [times[k]]))
    }
  }
}
