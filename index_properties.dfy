/**
 * Properties of the index builder: what each factory followed by `on`
 * yields, that setter chains keep everything but their own field and that
 * the last write wins, and what `build` does and does not change.
 */
module MySqlIndexProperties {
  import opened MySqlIndexes

  // ---------------------------------------------------------------------------
  // Round trips of the spreads
  // ---------------------------------------------------------------------------

  /** Splitting a configuration into its columns and the rest loses nothing. */
  lemma SplitColumnsRoundTrip<C>(c: IndexConfig<C>)
    ensures WithColumns(OmitColumns(c), c.columns) == c
  {
  }

  /** Splitting a built configuration into its table and the rest loses nothing. */
  lemma SplitTableRoundTrip<C, T>(b: BoundConfig<C, T>)
    ensures WithTable(Unbind(b), b.table) == b
  {
  }

  // ---------------------------------------------------------------------------
  // Factories followed by `on`
  // ---------------------------------------------------------------------------

  /** `index(n).on(c, ...cs)`: the name, the columns, `unique: false`, nothing else. */
  lemma PlainIndexOn<C>(n: string, first: C, rest: seq<C>)
    ensures MakeIndex(n).OnConfig(first, rest)
         == IndexConfig(n, [first] + rest, Some(false), None, None, None, None, None)
  {
  }

  /** `uniqueIndex(n).on(c, ...cs)`: the same shape with `unique: true`. */
  lemma UniqueIndexOn<C>(n: string, first: C, rest: seq<C>)
    ensures MakeUniqueIndex(n).OnConfig(first, rest)
         == IndexConfig(n, [first] + rest, Some(true), None, None, None, None, None)
  {
  }

  /**
   * `vectorIndex(v).on(c, ...cs)`: `vector: true`, the given columns, and every
   * field of `v` unchanged, `unique` included (not the factory's `false` flag).
   */
  lemma VectorIndexOn<C>(v: VectorIndexConfig, first: C, rest: seq<C>)
    ensures MakeVectorIndex(v).OnConfig(first, rest)
         == IndexConfig(v.name, [first] + rest, v.unique, Some(true), v.using, v.algorythm,
                        v.lock, v.secondaryEngineAttribute)
  {
  }

  /** On the bare-name path the stored flag alone decides `unique`. */
  lemma NamePathUniqueIsFlag<C>(n: string, flag: bool, first: C, rest: seq<C>)
    ensures IndexBuilderOn(Name(n), flag).OnConfig(first, rest).unique == Some(flag)
    ensures IndexBuilderOn(Name(n), flag).OnConfig(first, rest).vector == None
  {
  }

  /** On the partial-configuration path the stored flag is never consulted. */
  lemma PartialPathIgnoresFlag<C>(p: PartialConfig, flag1: bool, flag2: bool, first: C, rest: seq<C>)
    ensures IndexBuilderOn(Partial(p), flag1).OnConfig(first, rest)
         == IndexBuilderOn(Partial(p), flag2).OnConfig(first, rest)
    ensures IndexBuilderOn(Partial(p), flag1).OnConfig(first, rest).unique == p.unique
  {
  }

  // ---------------------------------------------------------------------------
  // Setter chains
  // ---------------------------------------------------------------------------

  /** Appending one setter call to a chain applies it to the chain's result. */
  lemma {:induction false} ApplyAllSnoc<C>(c: IndexConfig<C>, ms: seq<Modifier>, m: Modifier)
    ensures ApplyAll(c, ms + [m]) == Apply(ApplyAll(c, ms), m)
    decreases |ms|
  {
    if ms == [] {
      assert ms + [m] == [m];
    } else {
      assert (ms + [m])[0] == ms[0];
      assert (ms + [m])[1..] == ms[1..] + [m];
      ApplyAllSnoc(Apply(c, ms[0]), ms[1..], m);
    }
  }

  /** The argument of the last `using` call in `ms`, or `init` when there is none. */
  function LastUsing(ms: seq<Modifier>, init: Option<IndexMethod>): Option<IndexMethod>
  {
    if ms == [] then init
    else if ms[|ms| - 1].SetUsing? then ms[|ms| - 1].newUsing
    else LastUsing(ms[..|ms| - 1], init)
  }

  /** The argument of the last `algorythm` call in `ms`, or `init` when there is none. */
  function LastAlgorythm(ms: seq<Modifier>, init: Option<Algorithm>): Option<Algorithm>
  {
    if ms == [] then init
    else if ms[|ms| - 1].SetAlgorythm? then ms[|ms| - 1].newAlgorythm
    else LastAlgorythm(ms[..|ms| - 1], init)
  }

  /** The argument of the last `lock` call in `ms`, or `init` when there is none. */
  function LastLock(ms: seq<Modifier>, init: Option<LockMode>): Option<LockMode>
  {
    if ms == [] then init
    else if ms[|ms| - 1].SetLock? then ms[|ms| - 1].newLock
    else LastLock(ms[..|ms| - 1], init)
  }

  /**
   * Last write wins: after any chain of setter calls each modifier field holds
   * the argument of the last call of its own setter (its old value if that
   * setter was never called), and every other field is unchanged.
   */
  lemma {:induction false} ApplyAllLastWriteWins<C>(c: IndexConfig<C>, ms: seq<Modifier>)
    ensures ApplyAll(c, ms)
         == c.(using := LastUsing(ms, c.using),
               algorythm := LastAlgorythm(ms, c.algorythm),
               lock := LastLock(ms, c.lock))
    decreases |ms|
  {
    if ms != [] {
      var init, last := ms[..|ms| - 1], ms[|ms| - 1];
      assert ms == init + [last];
      ApplyAllSnoc(c, init, last);
      ApplyAllLastWriteWins(c, init);
    }
  }

  /**
   * No chain of setter calls touches the name, the columns, `unique`,
   * `vector` or `secondaryEngineAttribute`.
   */
  lemma ApplyAllKeepsFixedFields<C>(c: IndexConfig<C>, ms: seq<Modifier>)
    ensures ApplyAll(c, ms).name == c.name
    ensures ApplyAll(c, ms).columns == c.columns
    ensures ApplyAll(c, ms).unique == c.unique
    ensures ApplyAll(c, ms).vector == c.vector
    ensures ApplyAll(c, ms).secondaryEngineAttribute == c.secondaryEngineAttribute
  {
    ApplyAllLastWriteWins(c, ms);
  }

  /** Setters of different fields commute. */
  lemma DistinctSettersCommute<C>(c: IndexConfig<C>, m1: Modifier, m2: Modifier)
    requires !SameSetter(m1, m2)
    ensures Apply(Apply(c, m1), m2) == Apply(Apply(c, m2), m1)
  {
  }

  // ---------------------------------------------------------------------------
  // Building
  // ---------------------------------------------------------------------------

  /**
   * Two indexes built from one configuration agree on every field but the
   * table, and are equal exactly when the tables are.
   */
  lemma BuildTwiceDiffersOnlyInTable<C, T>(c: IndexConfig<C>, t1: T, t2: T)
    ensures Unbind(NewIndex(c, t1).config) == Unbind(NewIndex(c, t2).config)
    ensures NewIndex(c, t1) == NewIndex(c, t2) <==> t1 == t2
  {
    if NewIndex(c, t1) == NewIndex(c, t2) {
      assert NewIndex(c, t1).config.table == NewIndex(c, t2).config.table;
    }
  }

  /** `build` called twice with two tables on one builder. */
  method BuildTwice<C, T>(b: IndexBuilder<C>, t1: T, t2: T) returns (ix1: Index<C, T>, ix2: Index<C, T>)
    ensures Unbind(ix1.config) == Unbind(ix2.config) == b.config
    ensures ix1.config.table == t1 && ix2.config.table == t2
  {
    ix1 := b.Build(t1);
    ix2 := b.Build(t2);
  }

  /** A setter called after `build` changes the builder and not the index already built. */
  method SetterAfterBuild<C, T>(b: IndexBuilder<C>, t: T, u: Option<IndexMethod>) returns (ix: Index<C, T>)
    modifies b
    ensures Unbind(ix.config) == old(b.config) && ix.config.table == t
    ensures b.config == old(b.config).(using := u)
  {
    ix := b.Build(t);
    var self := b.Using(u);
  }

  /** `using(x).using(y)` on one builder leaves `y`. */
  method UsingTwice<C>(b: IndexBuilder<C>, x: Option<IndexMethod>, y: Option<IndexMethod>)
    returns (self: IndexBuilder<C>)
    modifies b
    ensures self == b
    ensures b.config == old(b.config).(using := y)
  {
    self := b.Using(x);
    self := self.Using(y);
  }

  // ---------------------------------------------------------------------------
  // Whole chains from factory to index
  // ---------------------------------------------------------------------------

  /** `index('idx_name').on(colA).using('btree').build(tableT)`. */
  method PlainIndexUsingBtree<C, T>(colA: C, tableT: T) returns (ix: Index<C, T>)
    ensures ix.config
         == BoundConfig("idx_name", [colA], Some(false), None, Some(Btree), None, None, None, tableT)
  {
    var b := MakeIndex("idx_name").On(colA, []);
    b := b.Using(Some(Btree));
    ix := b.Build(tableT);
    SplitTableRoundTrip(ix.config);
  }

  /** `uniqueIndex('idx_email').on(colEmail).build(tableUsers)`. */
  method UniqueIndexOnEmail<C, T>(colEmail: C, tableUsers: T) returns (ix: Index<C, T>)
    ensures ix.config
         == BoundConfig("idx_email", [colEmail], Some(true), None, None, None, None, None, tableUsers)
  {
    var b := MakeUniqueIndex("idx_email").On(colEmail, []);
    ix := b.Build(tableUsers);
    SplitTableRoundTrip(ix.config);
  }

  /** `vectorIndex({ name: 'idx_vec', using: 'hash' }).on(colEmbedding).build(tableDocs)`. */
  method VectorIndexOnEmbedding<C, T>(colEmbedding: C, tableDocs: T) returns (ix: Index<C, T>)
    ensures ix.config
         == BoundConfig("idx_vec", [colEmbedding], None, Some(true), Some(Hash), None, None, None,
                        tableDocs)
  {
    var v := VectorIndexConfig("idx_vec", None, Some(Hash), None, None, None);
    var b := MakeVectorIndex(v).On(colEmbedding, []);
    ix := b.Build(tableDocs);
    SplitTableRoundTrip(ix.config);
  }
}
