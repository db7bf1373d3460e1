/**
 * MySQL index metadata builder of the schema-definition layer.
 *
 * Three stages: a factory (`index`, `uniqueIndex`, `vectorIndex`) yields an
 * `IndexBuilderOn` holding a name or a partial configuration; `on(...)` adds
 * the columns and yields a mutable `IndexBuilder`; the chainable setters
 * `using`, `algorythm` and `lock` overwrite one field of its configuration in
 * place; `build(table)` yields an `Index`, a snapshot of the configuration
 * together with its owning table.
 *
 * Columns (`C`) and tables (`T`) are opaque: they are stored, never inspected.
 */
module MySqlIndexes {

  datatype Option<+V> = None | Some(value: V)

  /** Values of `using` (`'btree' | 'hash'`). */
  datatype IndexMethod = Btree | Hash

  /** Values of `algorythm` (`'default' | 'inplace' | 'copy'`). */
  datatype Algorithm = AlgDefault | AlgInplace | AlgCopy

  /** Values of `lock` (`'default' | 'none' | 'shared' | 'exclusive'`). */
  datatype LockMode = LockDefault | LockNone | LockShared | LockExclusive

  /**
   * `IndexConfig`: an optional key is `None` when the key is absent, and also
   * when a setter stored `undefined` in it (the key is then present with an
   * undefined value, which the spread of the `Index` constructor copies).
   */
  datatype IndexConfig<C> = IndexConfig(
    name: string,
    columns: seq<C>,
    unique: Option<bool>,
    vector: Option<bool>,
    using: Option<IndexMethod>,
    algorythm: Option<Algorithm>,
    lock: Option<LockMode>,
    secondaryEngineAttribute: Option<string>)

  /** `Omit<IndexConfig, 'columns'>`: a configuration still waiting for its columns. */
  datatype PartialConfig = PartialConfig(
    name: string,
    unique: Option<bool>,
    vector: Option<bool>,
    using: Option<IndexMethod>,
    algorythm: Option<Algorithm>,
    lock: Option<LockMode>,
    secondaryEngineAttribute: Option<string>)

  /** `Omit<IndexConfig, 'columns' | 'vector'>`: what the caller hands to `vectorIndex`. */
  datatype VectorIndexConfig = VectorIndexConfig(
    name: string,
    unique: Option<bool>,
    using: Option<IndexMethod>,
    algorythm: Option<Algorithm>,
    lock: Option<LockMode>,
    secondaryEngineAttribute: Option<string>)

  /** `IndexConfig & { table: MySqlTable }`: the configuration of a built index. */
  datatype BoundConfig<C, T> = BoundConfig(
    name: string,
    columns: seq<C>,
    unique: Option<bool>,
    vector: Option<bool>,
    using: Option<IndexMethod>,
    algorythm: Option<Algorithm>,
    lock: Option<LockMode>,
    secondaryEngineAttribute: Option<string>,
    table: T)

  /** The spread `{ ...partial, columns }`. */
  function WithColumns<C>(p: PartialConfig, columns: seq<C>): (c: IndexConfig<C>)
    ensures c.columns == columns
    ensures OmitColumns(c) == p
  {
    IndexConfig(p.name, columns, p.unique, p.vector, p.using, p.algorythm, p.lock,
                p.secondaryEngineAttribute)
  }

  /** The configuration without its columns: the inverse of `WithColumns`. */
  function OmitColumns<C>(c: IndexConfig<C>): PartialConfig
  {
    PartialConfig(c.name, c.unique, c.vector, c.using, c.algorythm, c.lock,
                  c.secondaryEngineAttribute)
  }

  /** The spread `{ ...config, table }` of the `Index` constructor. */
  function WithTable<C, T>(c: IndexConfig<C>, table: T): (b: BoundConfig<C, T>)
    ensures b.table == table
    ensures Unbind(b) == c
  {
    BoundConfig(c.name, c.columns, c.unique, c.vector, c.using, c.algorythm, c.lock,
                c.secondaryEngineAttribute, table)
  }

  /** The configuration of a built index without its table: the inverse of `WithTable`. */
  function Unbind<C, T>(b: BoundConfig<C, T>): IndexConfig<C>
  {
    IndexConfig(b.name, b.columns, b.unique, b.vector, b.using, b.algorythm, b.lock,
                b.secondaryEngineAttribute)
  }

  /** What `IndexBuilderOn` stores in its `name` slot: a bare name or a partial configuration. */
  datatype NameOrConfig = Name(name: string) | Partial(config: PartialConfig)

  /**
   * `Index`: immutable once constructed; its configuration is a copy of the
   * builder's, so later setter calls on the builder do not reach it.
   */
  datatype Index<C, T> = Index(config: BoundConfig<C, T>)

  /** The `Index` constructor. */
  function NewIndex<C, T>(config: IndexConfig<C>, table: T): (ix: Index<C, T>)
    ensures ix.config.table == table
    ensures Unbind(ix.config) == config
  {
    Index(WithTable(config, table))
  }

  /** One call of a chainable setter of `IndexBuilder`, with its argument. */
  datatype Modifier =
    | SetUsing(newUsing: Option<IndexMethod>)
    | SetAlgorythm(newAlgorythm: Option<Algorithm>)
    | SetLock(newLock: Option<LockMode>)

  /** True when both calls are of the same setter, whatever their arguments. */
  predicate SameSetter(m1: Modifier, m2: Modifier)
  {
    (m1.SetUsing? && m2.SetUsing?) || (m1.SetAlgorythm? && m2.SetAlgorythm?)
    || (m1.SetLock? && m2.SetLock?)
  }

  /** The effect of one setter on the configuration: exactly one field is overwritten. */
  function Apply<C>(c: IndexConfig<C>, m: Modifier): (r: IndexConfig<C>)
    ensures r.name == c.name && r.columns == c.columns && r.unique == c.unique
    ensures r.vector == c.vector && r.secondaryEngineAttribute == c.secondaryEngineAttribute
    ensures m.SetUsing? ==> r.using == m.newUsing && r.algorythm == c.algorythm && r.lock == c.lock
    ensures m.SetAlgorythm? ==> r.algorythm == m.newAlgorythm && r.using == c.using && r.lock == c.lock
    ensures m.SetLock? ==> r.lock == m.newLock && r.using == c.using && r.algorythm == c.algorythm
  {
    match m
    case SetUsing(u) => c.(using := u)
    case SetAlgorythm(a) => c.(algorythm := a)
    case SetLock(l) => c.(lock := l)
  }

  /** A chain of setter calls, applied left to right as `b.m0(..).m1(..)...` evaluates them. */
  function ApplyAll<C>(c: IndexConfig<C>, ms: seq<Modifier>): IndexConfig<C>
    decreases |ms|
  {
    if ms == [] then c else ApplyAll(Apply(c, ms[0]), ms[1..])
  }

  /**
   * `IndexBuilderOn`: the name (or partial configuration) and the uniqueness
   * flag, before the columns are known.
   */
  datatype IndexBuilderOn = IndexBuilderOn(name: NameOrConfig, unique: bool)
  {
    /**
     * The configuration `on(first, ...rest)` hands to the new builder. The
     * uniqueness flag is consulted only on the bare-name path.
     */
    function OnConfig<C>(first: C, rest: seq<C>): (c: IndexConfig<C>)
      ensures c.columns == [first] + rest && |c.columns| > 0
      ensures name.Partial? ==> OmitColumns(c) == name.config
      ensures name.Name? ==>
        OmitColumns(c) == PartialConfig(name.name, Some(unique), None, None, None, None, None)
    {
      match name
      case Partial(p) => WithColumns(p, [first] + rest)
      case Name(n) => IndexConfig(n, [first] + rest, Some(unique), None, None, None, None, None)
    }

    /** `on(first, ...rest)`: a fresh builder over `OnConfig(first, rest)`. */
    method On<C>(first: C, rest: seq<C>) returns (b: IndexBuilder<C>)
      ensures fresh(b)
      ensures b.config == OnConfig(first, rest)
    {
      if name.Partial? {
        b := new IndexBuilder.FromConfig(WithColumns(name.config, [first] + rest));
      } else {
        b := new IndexBuilder.FromParts(name.name, [first] + rest, unique);
      }
    }
  }

  /** `IndexBuilder`: a configuration that the chainable setters update in place. */
  class IndexBuilder<C> {
    var config: IndexConfig<C>

    /** `new IndexBuilder(name, columns, unique)`. */
    constructor FromParts(name: string, columns: seq<C>, unique: bool)
      ensures config == IndexConfig(name, columns, Some(unique), None, None, None, None, None)
    {
      config := IndexConfig(name, columns, Some(unique), None, None, None, None, None);
    }

    /** `new IndexBuilder(config)`. */
    constructor FromConfig(config: IndexConfig<C>)
      ensures this.config == config
    {
      this.config := config;
    }

    /** `using(u)`: overwrites `using`, returns this same builder. */
    method Using(u: Option<IndexMethod>) returns (self: IndexBuilder<C>)
      modifies this
      ensures self == this
      ensures config == Apply(old(config), SetUsing(u))
    {
      config := config.(using := u);
      self := this;
    }

    /** `algorythm(a)`: overwrites `algorythm`, returns this same builder. */
    method Algorythm(a: Option<Algorithm>) returns (self: IndexBuilder<C>)
      modifies this
      ensures self == this
      ensures config == Apply(old(config), SetAlgorythm(a))
    {
      config := config.(algorythm := a);
      self := this;
    }

    /** `lock(l)`: overwrites `lock`, returns this same builder. */
    method Lock(l: Option<LockMode>) returns (self: IndexBuilder<C>)
      modifies this
      ensures self == this
      ensures config == Apply(old(config), SetLock(l))
    {
      config := config.(lock := l);
      self := this;
    }

    /**
     * `build(table)`: an index whose configuration is the current one plus
     * the table; the builder itself is left as it is (no `modifies`).
     */
    method Build<T>(table: T) returns (ix: Index<C, T>)
      ensures ix.config.table == table
      ensures Unbind(ix.config) == config
    {
      ix := NewIndex(config, table);
    }
  }

  /** `index(name)`: the bare name, not unique. */
  function MakeIndex(name: string): (r: IndexBuilderOn)
    ensures r == IndexBuilderOn(Name(name), false)
  {
    IndexBuilderOn(Name(name), false)
  }

  /** `uniqueIndex(name)`: the bare name, unique. */
  function MakeUniqueIndex(name: string): (r: IndexBuilderOn)
    ensures r == IndexBuilderOn(Name(name), true)
  {
    IndexBuilderOn(Name(name), true)
  }

  /** `vectorIndex(config)`: the caller's options with `vector` forced on; the flag is `false`. */
  function MakeVectorIndex(v: VectorIndexConfig): (r: IndexBuilderOn)
    ensures r.name.Partial? && r.name.config.vector == Some(true) && !r.unique
    ensures r.name.config.name == v.name && r.name.config.unique == v.unique
    ensures r.name.config.using == v.using && r.name.config.algorythm == v.algorythm
    ensures r.name.config.lock == v.lock
    ensures r.name.config.secondaryEngineAttribute == v.secondaryEngineAttribute
  {
    IndexBuilderOn(
      Partial(PartialConfig(v.name, v.unique, Some(true), v.using, v.algorythm, v.lock,
                            v.secondaryEngineAttribute)),
      false)
  }
}
