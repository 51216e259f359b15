/** The in-memory table a table export builds before writing it: an ordered
    sequence of named columns, as the empty DataFrame grows by one
    `df[column] = Series(values)` assignment per fetched column. */
module Frame {
  import opened Model

  datatype Column = Column(name: string, cells: seq<Cell>)

  type Table = seq<Column>

  function Names(df: Table): (r: seq<string>)
    ensures |r| == |df|
    ensures forall j :: 0 <= j < |df| ==> r[j] == df[j].name
  {
    seq(|df|, j requires 0 <= j < |df| => df[j].name)
  }

  predicate Distinct(xs: seq<string>)
  {
    forall i, j :: 0 <= i < j < |xs| ==> xs[i] != xs[j]
  }

  /** `df[c.name] = c.cells`: a name already present keeps its position and
      takes the new cells; a new name is appended as the last column. */
  function Assign(df: Table, c: Column): Table
  {
    if c.name in Names(df)
    then seq(|df|, j requires 0 <= j < |df| => if df[j].name == c.name then c else df[j])
    else df + [c]
  }

  /** Assignment keeps the names and their order when the name is present,
      replacing that column's cells and nothing else; a new name is appended
      with `df` otherwise untouched; distinct names stay distinct. */
  lemma AssignSemantics(df: Table, c: Column)
    ensures var r := Assign(df, c);
      && Names(r) == (if c.name in Names(df) then Names(df) else Names(df) + [c.name])
      && (c.name !in Names(df) ==> r == df + [c])
      && (forall j :: 0 <= j < |r| ==> r[j] == if r[j].name == c.name then c else df[j])
      && (Distinct(Names(df)) ==> Distinct(Names(r)))
  {
  }

  /** `xs` with every repeated element dropped after its first occurrence. */
  function Dedup(xs: seq<string>): seq<string>
  {
    if xs == [] then []
    else
      var init, last := xs[..|xs| - 1], xs[|xs| - 1];
      if last in init then Dedup(init) else Dedup(init) + [last]
  }

  lemma {:induction false} DedupMembers(xs: seq<string>)
    ensures forall x :: x in Dedup(xs) <==> x in xs
    ensures Distinct(Dedup(xs))
  {
    if xs != [] {
      var init := xs[..|xs| - 1];
      DedupMembers(init);
      assert xs == init + [xs[|xs| - 1]];
    }
  }

  lemma {:induction false} DedupOfDistinct(xs: seq<string>)
    requires Distinct(xs)
    ensures Dedup(xs) == xs
  {
    if xs != [] {
      var init := xs[..|xs| - 1];
      DedupOfDistinct(init);
      assert xs == init + [xs[|xs| - 1]];
    }
  }
}
