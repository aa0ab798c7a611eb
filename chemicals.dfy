/**
 * Chemical types, chemicals and the per-type rows (`deque`s) that the Supply
 * and every Player keep, with the two row operations both of them use:
 * `appendleft` (store) and `popleft` (retrieve).
 */
module Chemicals {
  import opened Wrappers

  /** The five chemical types (`ChemicalType`). */
  datatype ChemicalType = Verdino | Melgoth | Delugium | Calorium | Radieu

  /** A chemical unit, tagged with its type (the dataclass field `type`). */
  datatype Chemical = Chemical(kind: ChemicalType)

  /** One row per chemical type; index 0 is the front of the deque. */
  type Rows = map<ChemicalType, seq<Chemical>>

  /**
   * Every chemical type has a row, and a row holds only chemicals of its own
   * type; `initialize_chemicals` builds such rows and store/retrieve keep them so.
   */
  predicate WellFormed(rows: Rows) {
    forall t: ChemicalType :: t in rows && forall c :: c in rows[t] ==> c.kind == t
  }

  /** Number of chemicals of type `t` in the rows (the `len` of its deque). */
  function Count(rows: Rows, t: ChemicalType): nat
    requires WellFormed(rows)
  {
    |rows[t]|
  }

  /** `appendleft(chemical)` on the row of the chemical's own type. */
  function Store(rows: Rows, c: Chemical): (r: Rows)
    requires WellFormed(rows)
    ensures WellFormed(r)
    ensures Count(r, c.kind) == Count(rows, c.kind) + 1
    ensures forall t :: t != c.kind ==> r[t] == rows[t]
  {
    rows[c.kind := [c] + rows[c.kind]]
  }

  /**
   * `popleft()` on the row of type `t`: the front chemical and the rows
   * without it, or None where the deque raises IndexError (empty row).
   */
  function Retrieve(rows: Rows, t: ChemicalType): (r: Option<(Chemical, Rows)>)
    requires WellFormed(rows)
    ensures r.None? <==> Count(rows, t) == 0
    ensures r.Some? ==> r.value.0.kind == t && WellFormed(r.value.1)
    ensures r.Some? ==> Count(r.value.1, t) + 1 == Count(rows, t)
    ensures r.Some? ==> forall u :: u != t ==> r.value.1[u] == rows[u]
  {
    if rows[t] == [] then None
    else
      assert rows[t][0] in rows[t];
      Some((rows[t][0], rows[t := rows[t][1..]]))
  }

  /** Rows behave as stacks: retrieving right after storing gives back the chemical and the old rows. */
  lemma StoreThenRetrieve(rows: Rows, c: Chemical)
    requires WellFormed(rows)
    ensures Retrieve(Store(rows, c), c.kind) == Some((c, rows))
  {
    var s := Store(rows, c);
    assert s[c.kind][1..] == rows[c.kind];
    assert s[c.kind := s[c.kind][1..]] == rows;
  }

  /** Storing back what was just retrieved restores the rows. */
  lemma RetrieveThenStore(rows: Rows, t: ChemicalType)
    requires WellFormed(rows)
    requires Count(rows, t) > 0
    ensures Retrieve(rows, t).Some?
    ensures Store(Retrieve(rows, t).value.1, Retrieve(rows, t).value.0) == rows
  {
    var rest := rows[t := rows[t][1..]];
    assert [rows[t][0]] + rest[t] == rows[t];
  }

  /** The deque `deque(Chemical(type=t) for i in range(n))`: `n` copies, none for `n <= 0`. */
  function Repeat(c: Chemical, n: int): (r: seq<Chemical>)
    ensures |r| == if n <= 0 then 0 else n
    ensures forall x :: x in r ==> x == c
    decreases n
  {
    if n <= 0 then [] else [c] + Repeat(c, n - 1)
  }

  /** `initialize_chemicals(n)`: one row per type, each holding `n` chemicals of that type. */
  function InitializeChemicals(n: int): (rows: Rows)
    ensures WellFormed(rows)
    ensures forall t :: Count(rows, t) == if n <= 0 then 0 else n
  {
    map t: ChemicalType | true :: Repeat(Chemical(t), n)
  }
}
