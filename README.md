# MySQL index builder of drizzle-orm, modelled in Dafny

This project models `drizzle-orm/src/mysql-core/indexes.ts`, the builder that assembles the
metadata of a MySQL index for a table schema. Building an index takes three stages:

- **Named.** A factory creates an `IndexBuilderOn`. `index(name)` and `uniqueIndex(name)` store
  a bare name plus a uniqueness flag. `vectorIndex(options)` stores a partial configuration with
  `vector: true` forced on.
- **Configured.** `on(first, ...rest)` adds the columns and creates an `IndexBuilder`. The
  builder holds a mutable `config`. The chainable setters `using`, `algorythm` and `lock` each
  overwrite one field of it in place and return the same builder.
- **Bound.** `build(table)` creates an `Index`. Its config is a copy of the builder's config
  with the owning table added.

Files:

- `indexes.dfy` (module `MySqlIndexes`) holds the data model and the operations.
  - `IndexConfig`, `PartialConfig`, `VectorIndexConfig` and `BoundConfig` are datatypes.
    Every optional key is an `Option` that is `None` when the key is absent or undefined.
  - `IndexBuilderOn` and `Index` are immutable datatypes.
  - `IndexBuilder` is a class whose setters reassign its `config` field.
  - Columns and tables are type parameters that are stored and never inspected.
- `index_properties.dfy` (module `MySqlIndexProperties`) holds the lemmas and some client methods.
  - The lemmas cover what each factory followed by `on` yields, and that setter chains are
    last-write-wins and never touch the other fields.
  - The client methods cover `build` called twice, a setter after `build`, and three
    factory-to-index chains.

A chain of setter calls is modelled by `Modifier` (one setter call with its argument), by
`Apply` (the effect of one call) and by `ApplyAll` (a whole chain, left to right). Each setter
method's `ensures` ties the builder's new config to `Apply` of the old one. This lets the
lemmas about `ApplyAll` speak about any chain of calls on the class.

Notes on the source's own choices that the model keeps:

- The field is spelled `algorythm`, as in the source (line 31).
- `using` takes only `'btree' | 'hash'` (line 26), although `MysqlIndexMethod` (line 6) also
  lists `'hnsw'`. `IndexConfig` does not use that type.
- `on` has no run-time check for zero columns. Its signature requires a first column
  (line 48), and the model keeps that form, `On(first, rest)`.
- `None` stands for an absent key, and also for a key a setter set to `undefined`. For
  example, `using(undefined)` leaves `using` present with the value `undefined` (line 81), and
  the spread at line 107 copies it. The model does not tell these two apart.

## Model

| member | source | states |
|---|---|---|
| `MySqlIndexes.WithColumns` | drizzle-orm/src/mysql-core/indexes.ts:49-51 | the spread `{...partial, columns}` has exactly the given columns, and dropping them gives back the partial config unchanged |
| `MySqlIndexes.WithTable` | drizzle-orm/src/mysql-core/indexes.ts:107 | the spread `{...config, table}` carries the given table, and dropping the table gives back the config unchanged |
| `MySqlIndexes.NewIndex` | drizzle-orm/src/mysql-core/indexes.ts:106-108 | the `Index` constructor stores the given config with the given table added, and nothing else |
| `MySqlIndexes.Apply` | drizzle-orm/src/mysql-core/indexes.ts:80-93 | one setter call overwrites its own field with its argument, keeps the other two modifier fields, and never touches name, columns, unique, vector or secondaryEngineAttribute |
| `MySqlIndexes.IndexBuilderOn.OnConfig` | drizzle-orm/src/mysql-core/indexes.ts:48-53 | the columns are `[first] + rest`, so never empty. On the partial-config path the rest of the config is the stored partial config, and the flag is not used. On the bare-name path it is the name with `unique` equal to the flag and every other key absent |
| `MySqlIndexes.IndexBuilderOn.On` | drizzle-orm/src/mysql-core/indexes.ts:48-53 | `on` returns a fresh builder whose config is `OnConfig` of the given columns |
| `MySqlIndexes.IndexBuilder.FromParts` | drizzle-orm/src/mysql-core/indexes.ts:72-77 | the `(name, columns, unique)` constructor sets name, columns and `unique`, and leaves every other key absent |
| `MySqlIndexes.IndexBuilder.FromConfig` | drizzle-orm/src/mysql-core/indexes.ts:72-73 | the `(config)` constructor stores the given config as it is |
| `MySqlIndexes.IndexBuilder.Using` | drizzle-orm/src/mysql-core/indexes.ts:80-83 | `using(u)` sets only `using` to `u` and returns the same builder |
| `MySqlIndexes.IndexBuilder.Algorythm` | drizzle-orm/src/mysql-core/indexes.ts:85-88 | `algorythm(a)` sets only `algorythm` to `a` and returns the same builder |
| `MySqlIndexes.IndexBuilder.Lock` | drizzle-orm/src/mysql-core/indexes.ts:90-93 | `lock(l)` sets only `lock` to `l` and returns the same builder |
| `MySqlIndexes.IndexBuilder.Build` | drizzle-orm/src/mysql-core/indexes.ts:96-98 | `build(t)` returns an index whose config is the builder's current config plus `table = t`, and it modifies nothing |
| `MySqlIndexes.MakeIndex` | drizzle-orm/src/mysql-core/indexes.ts:117-119 | `index(name)` holds the bare name with the uniqueness flag `false` |
| `MySqlIndexes.MakeUniqueIndex` | drizzle-orm/src/mysql-core/indexes.ts:121-123 | `uniqueIndex(name)` holds the bare name with the uniqueness flag `true` |
| `MySqlIndexes.MakeVectorIndex` | drizzle-orm/src/mysql-core/indexes.ts:125-127 | `vectorIndex(v)` holds a partial config with `vector: true` and name, `unique`, `using`, `algorythm`, `lock` and `secondaryEngineAttribute` copied from `v`. Its uniqueness flag is `false` |
| `MySqlIndexProperties.SplitColumnsRoundTrip` | drizzle-orm/src/mysql-core/indexes.ts:49-51 | a config is its columns merged back into the rest of it |
| `MySqlIndexProperties.SplitTableRoundTrip` | drizzle-orm/src/mysql-core/indexes.ts:107 | a built config is its table merged back into the rest of it |
| `MySqlIndexProperties.PlainIndexOn` | drizzle-orm/src/mysql-core/indexes.ts:117-119 | `index(n).on(c, ...cs)` gives name `n`, columns `[c, ...cs]`, `unique: false`, and no vector, using, algorythm, lock or engine attribute |
| `MySqlIndexProperties.UniqueIndexOn` | drizzle-orm/src/mysql-core/indexes.ts:121-123 | `uniqueIndex(n).on(c, ...cs)` gives the same shape with `unique: true` |
| `MySqlIndexProperties.VectorIndexOn` | drizzle-orm/src/mysql-core/indexes.ts:125-127 | `vectorIndex(v).on(c, ...cs)` gives `vector: true`, columns `[c, ...cs]`, and every field of `v` unchanged, `unique` included |
| `MySqlIndexProperties.NamePathUniqueIsFlag` | drizzle-orm/src/mysql-core/indexes.ts:52 | on the bare-name path `unique` is the stored flag and `vector` is absent |
| `MySqlIndexProperties.PartialPathIgnoresFlag` | drizzle-orm/src/mysql-core/indexes.ts:49-51 | on the partial-config path the result is the same whatever the flag, and `unique` comes from the partial config |
| `MySqlIndexProperties.ApplyAllSnoc` | drizzle-orm/src/mysql-core/indexes.ts:80-93 | one more setter call at the end of a chain acts on the config the chain left |
| `MySqlIndexProperties.ApplyAllKeepsFixedFields` | drizzle-orm/src/mysql-core/indexes.ts:80-93 | no chain of setter calls changes the name, the columns, `unique`, `vector` or `secondaryEngineAttribute` |
| `MySqlIndexProperties.ApplyAllLastWriteWins` | drizzle-orm/src/mysql-core/indexes.ts:80-93 | after any chain of setter calls, each of `using`, `algorythm` and `lock` holds the argument of the last call of its own setter, or its old value when that setter was never called. Every other field is unchanged |
| `MySqlIndexProperties.DistinctSettersCommute` | drizzle-orm/src/mysql-core/indexes.ts:80-93 | calls of two different setters give the same config in either order |
| `MySqlIndexProperties.BuildTwiceDiffersOnlyInTable` | drizzle-orm/src/mysql-core/indexes.ts:106-108 | two indexes built from one config agree on every field except the table, and they are equal exactly when the tables are equal |
| `MySqlIndexProperties.BuildTwice` | drizzle-orm/src/mysql-core/indexes.ts:96-98 | two `build` calls on one builder give two indexes that both carry the builder's config, each with its own table |
| `MySqlIndexProperties.SetterAfterBuild` | drizzle-orm/src/mysql-core/indexes.ts:107 | a setter call after `build` changes the builder, and the index already built keeps the old config |
| `MySqlIndexProperties.UsingTwice` | drizzle-orm/src/mysql-core/indexes.ts:80-83 | `using(x).using(y)` leaves `using = y` on the same builder |
| `MySqlIndexProperties.PlainIndexUsingBtree` | drizzle-orm/src/mysql-core/indexes.ts:117-119 | `index('idx_name').on(colA).using('btree').build(tableT)` gives exactly the config `{name: 'idx_name', columns: [colA], unique: false, using: 'btree', table: tableT}` |
| `MySqlIndexProperties.UniqueIndexOnEmail` | drizzle-orm/src/mysql-core/indexes.ts:121-123 | `uniqueIndex('idx_email').on(colEmail).build(tableUsers)` gives exactly `{name: 'idx_email', columns: [colEmail], unique: true, table: tableUsers}` |
| `MySqlIndexProperties.VectorIndexOnEmbedding` | drizzle-orm/src/mysql-core/indexes.ts:125-127 | `vectorIndex({name: 'idx_vec', using: 'hash'}).on(colEmbedding).build(tableDocs)` gives exactly `{name: 'idx_vec', columns: [colEmbedding], vector: true, using: 'hash', table: tableDocs}` |

## Left out

- The `entityKind` static tags (lines 44, 64, 102) are runtime type brands defined in `entity.ts`, which is not part of this model.
- `GetColumnsTableName` (lines 111-115) exists only at the type level and has no runtime behaviour.
- The internals of `MySqlColumn`, `SQL` and `MySqlTable` are outside this file. Columns and tables are opaque type parameters.
- Rendering `CREATE [UNIQUE|VECTOR] INDEX ... USING/ALGORITHM/LOCK` as SQL happens outside this file.
- `using`, `algorythm` and `lock` are closed enums, following their declared types. Untyped JavaScript could store any string there, and the model does not capture that.
- `on` always receives a first column. A zero-column call from untyped JavaScript is not modelled.
- Aliasing is not modelled. The `(config)` constructor stores the caller's object by reference (line 73). In the source, the setters' writes (lines 81, 86, 91) therefore reach that caller's object too. In the model, `FromConfig` stores a copy, so the caller's value never changes. Builders made by `on` are not affected, because lines 49-51 always pass a fresh spread object.
- A builder and the indexes built from it share one columns array (line 107). The model treats it as a value. Nothing in this file mutates that array after it is stored.
