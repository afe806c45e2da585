/**
 * The CSV rows that the analysis scripts write: a field is text, an integer
 * or a number; header values recorded as "Unknown" are written as empty
 * text; game metadata goes only on a game's move-1 row. The per-file loops
 * number the games and concatenate each game's rows; `Assemble` is that
 * loop's result, defined from the back so that each step of the loop adds
 * one result's rows.
 */
module Records {
  import opened Base

  datatype Field = Str(s: string) | Int(i: int) | Num(x: real)

  const Empty: Field := Str("")

  /** `value if value != "Unknown" else ""`. */
  function Blank(s: string): string
  {
    if s == "Unknown" then "" else s
  }

  /** `value if move["MoveNumber"] == 1 else ""`. */
  function OnFirst(moveNumber: int, f: Field): Field
  {
    if moveNumber == 1 then f else Empty
  }

  /** How many results are successful analyses. */
  function Successes<T>(results: seq<Option<T>>): (n: nat)
    ensures n <= |results|
  {
    if results == [] then 0
    else Successes(results[..|results| - 1]) + (if results[|results| - 1].Some? then 1 else 0)
  }

  /**
   * The GameID given to the next result: one more than the successes so far,
   * or, when failed analyses also advance the counter, one more than all
   * results so far.
   */
  function NextId<T>(results: seq<Option<T>>, countFailures: bool): nat
  {
    (if countFailures then |results| else Successes(results)) + 1
  }

  /** All rows of the results, in order, each success contributing `gameRows(its GameID, it)`. */
  function Assemble<T>(results: seq<Option<T>>, gameRows: (nat, T) -> seq<seq<Field>>, countFailures: bool): seq<seq<Field>>
  {
    if results == [] then []
    else
      var init := results[..|results| - 1];
      Assemble(init, gameRows, countFailures)
        + (match results[|results| - 1]
           case None => []
           case Some(t) => gameRows(NextId(init, countFailures), t))
  }

  lemma AssembleStep<T>(results: seq<Option<T>>, i: nat, gameRows: (nat, T) -> seq<seq<Field>>, countFailures: bool)
    requires i < |results|
    ensures Assemble(results[..i + 1], gameRows, countFailures)
         == Assemble(results[..i], gameRows, countFailures)
            + (match results[i] case None => [] case Some(t) => gameRows(NextId(results[..i], countFailures), t))
    ensures Successes(results[..i + 1]) == Successes(results[..i]) + (if results[i].Some? then 1 else 0)
  {
    assert results[..i + 1][..i] == results[..i];
  }

  /** A successful result adds its game's rows under the next GameID, and one more success. */
  lemma AssembleSome<T>(results: seq<Option<T>>, i: nat, gameRows: (nat, T) -> seq<seq<Field>>, countFailures: bool,
                        rows: seq<seq<Field>>, added: seq<seq<Field>>)
    requires i < |results| && results[i].Some?
    requires rows == Assemble(results[..i], gameRows, countFailures)
    requires added == gameRows(NextId(results[..i], countFailures), results[i].value)
    ensures Assemble(results[..i + 1], gameRows, countFailures) == rows + added
    ensures Successes(results[..i + 1]) == Successes(results[..i]) + 1
  {
    AssembleStep(results, i, gameRows, countFailures);
  }

  /** A failed result adds no rows and no success. */
  lemma AssembleNone<T>(results: seq<Option<T>>, i: nat, gameRows: (nat, T) -> seq<seq<Field>>, countFailures: bool)
    requires i < |results| && results[i].None?
    ensures Assemble(results[..i + 1], gameRows, countFailures) == Assemble(results[..i], gameRows, countFailures)
    ensures Successes(results[..i + 1]) == Successes(results[..i])
  {
    AssembleStep(results, i, gameRows, countFailures);
  }

  /** Every row of the assembled list has one of the widths that every game's rows have. */
  lemma {:induction false} AssembleWidths<T>(results: seq<Option<T>>, gameRows: (nat, T) -> seq<seq<Field>>,
                                             countFailures: bool, widths: set<nat>)
    requires forall id: nat, t: T, k :: 0 <= k < |gameRows(id, t)| ==> |gameRows(id, t)[k]| in widths
    ensures forall k :: 0 <= k < |Assemble(results, gameRows, countFailures)| ==>
      |Assemble(results, gameRows, countFailures)[k]| in widths
  {
    if results != [] {
      AssembleWidths(results[..|results| - 1], gameRows, countFailures, widths);
    }
  }
}
