# VSchema DDL, modelled and verified in Dafny

This project models how Vitess applies one `ALTER VSCHEMA` statement to the
VSchema of a keyspace (`ApplyVSchemaDDL` in `go/vt/topotools/vschema_ddl.go`).
A keyspace's VSchema has a `sharded` flag, a map of tables and a map of
vindexes. A table has a type, an ordered list of column vindexes and an
optional auto-increment. The statement carries exactly one of ten actions:
create/drop vindex, add/drop table, add/drop column vindex, add/drop
sequence, add/drop auto-increment. The result is the updated VSchema or an
error.

Files:

- `vschema.dfy` (module `VSchema`): the value types. These are the keyspace,
  table, vindex, column vindex and auto-increment records, the decoded
  statement (`VindexSpec`, `Action`), the error kinds, `Result`, and what the
  topology server answers (`Lookup`).
- `vschema_ddl_spec.dfy` (module `VSchemaDDL`): the reference definition. It
  has one function per action and `Apply` to dispatch. Each function's
  contract states when the action fails, with which error, and what the new
  schema is, entry by entry.
- `vschema_ddl_properties.dfy` (module `VSchemaDDLProperties`): lemmas that
  hold across actions. A well-formedness invariant is kept by every action
  and by any run of actions. Some actions undo each other. Removing a column
  vindex takes out exactly the first match, keeping order. A worked lifecycle
  of one vindex is included.
- `topotools.dfy` (module `Topotools`): the imperative model. The class
  `KeyspaceVSchemaInfo` holds the fetched schema in fields that its methods
  change in place, one method per action. The source's early-exit loops are
  read-only methods: `FindColumnVindex` and `IsReferenced`. The top-level
  method `ApplyVSchemaDDL` fetches or synthesises the schema, dispatches, and
  is proved to return exactly what `VSchemaDDL.Apply` gives.

Modelling choices:

- A vindex's parameter map is `Option<map<string, string>>`, where `None` is
  Go's nil map. This makes visible the rule at line 150: a nil map and an
  empty map count as the same parameters.
- A table name is empty when the statement names no table (lines 58-63). An
  empty table name gives no table record to the column-vindex actions. So
  `AddColumnVindex` with an empty name starts from a fresh record stored
  under `""`, and `DropColumnVindex` with one fails with `TableNotFound`. The
  auto-increment and table actions look the name up directly.
- A vindex type counts as "given" when it is not the empty string.
- Tables are values written back into the `tables` map. The source mutates
  them through shared pointers. The result is the same because every table
  pointer lives only in that map.
- In `AddColumnVindex`, a vindex the statement creates is recorded before the
  duplicate-on-table check, as in the source (lines 154-163, then 181-185).
  The method's contract states this intermediate state on the error path.
  `ApplyVSchemaDDL` then returns only the error, as the source returns nil.
- Go ranges over a map in no fixed order. `IsReferenced` picks each next table
  with `:|`, so its proof holds for every visiting order.

Three behaviours of the code that a reader might not expect:

- `DropTable` has no sharded check (lines 120-128). Of the two drop actions, only `DropSequence`
  rejects a sharded keyspace.
- Dropping a table's last column vindex deletes the whole table record
  (lines 209-211). Its type and auto-increment go with it, even for a table
  made by `AddTable` or `AddSequence` (lemma `DropLastColumnVindexDropsTable`).
- A conflicting vindex definition is one of three errors, checked in order:
  type, then owner, then parameters (`TypeMismatch`, `OwnerMismatch`,
  `ParamsMismatch`).

## Model

| member | source | states |
|---|---|---|
| `VSchemaDDL.ParamsConflict` | go/vt/topotools/vschema_ddl.go:150 | two parameter maps conflict exactly when their entries differ, so nil and empty maps agree |
| `VSchemaDDL.WithVindex` | go/vt/topotools/vschema_ddl.go:72-83 | recording the first vindex sets `sharded`, a later one leaves it as it was; only that vindex entry is added and `tables` is untouched |
| `VSchemaDDL.RemoveFirst` | go/vt/topotools/vschema_ddl.go:206-208 | removing an absent name leaves the list unchanged, removing a present one shortens it by one, and nothing new appears |
| `VSchemaDDL.ApplyCreateVindex` | go/vt/topotools/vschema_ddl.go:66-85 | fails with `VindexAlreadyExists` exactly when the name is taken; otherwise adds only that vindex with the given type, params and owner, follows the first-vindex sharded rule, and keeps `tables` |
| `VSchemaDDL.ApplyDropVindex` | go/vt/topotools/vschema_ddl.go:87-104 | `VindexNotFound` if absent, else `VindexInUse` if any table lists it; succeeds exactly otherwise, removing only that key and keeping `tables` and `sharded` |
| `VSchemaDDL.ApplyAddTable` | go/vt/topotools/vschema_ddl.go:106-118 | on a sharded keyspace `UnsupportedOnSharded` whether or not the table exists, else `TableAlreadyExists`; succeeds exactly otherwise, adding only an empty table |
| `VSchemaDDL.ApplyDropTable` | go/vt/topotools/vschema_ddl.go:120-128 | succeeds exactly when the table exists, sharded or not, removing only that table; otherwise `TableNotFound` |
| `VSchemaDDL.EnsureVindex` | go/vt/topotools/vschema_ddl.go:139-169 | without a type the vindex must exist (`VindexNotFound`); with a type an existing vindex must have the same definition, and a mismatch is reported as type, then owner, then params; an absent one is created under the first-vindex sharded rule; `tables` never changes |
| `VSchemaDDL.AttachColumnVindex` | go/vt/topotools/vschema_ddl.go:171-197 | the base record is the stored table when the name is non-empty and present, and a fresh empty table otherwise (lines 58-63); fails with `VindexAlreadyOnTable` exactly when the target table (or a fresh empty one) already lists the name; otherwise the table stored under the name is the old one with its list extended by one entry with the given name and columns, and nothing else changes |
| `VSchemaDDL.ApplyAddColumnVindex` | go/vt/topotools/vschema_ddl.go:130-197 | fails exactly when the vindex half fails (with its error, checked first) or the base table already lists the vindex (`VindexAlreadyOnTable`); on success the table is the base record with one entry appended, an existing vindex leaves `vindexes` and `sharded` as they were, and a new one is added under the first-vindex sharded rule |
| `VSchemaDDL.ApplyDropColumnVindex` | go/vt/topotools/vschema_ddl.go:199-215 | `TableNotFound` when the name is empty or absent, `VindexNotOnTable` when no entry has the name; on success the first match is removed, and the table is deleted if its list becomes empty or kept with the rest otherwise |
| `VSchemaDDL.ApplyAddSequence` | go/vt/topotools/vschema_ddl.go:217-229 | as adding a table, but the new record has type "sequence" |
| `VSchemaDDL.ApplyDropSequence` | go/vt/topotools/vschema_ddl.go:231-243 | `UnsupportedOnSharded` first, then `TableNotFound`; succeeds exactly otherwise, removing only that table |
| `VSchemaDDL.ApplyAddAutoIncrement` | go/vt/topotools/vschema_ddl.go:245-261 | `TableNotFound`, then `AutoIncAlreadySet`; on success only that table's auto-increment becomes the given column and sequence |
| `VSchemaDDL.ApplyDropAutoIncrement` | go/vt/topotools/vschema_ddl.go:263-276 | `TableNotFound`, then `NoAutoInc`; on success only that table's auto-increment is cleared |
| `VSchemaDDL.Apply` | go/vt/topotools/vschema_ddl.go:65-277 | for every action, `sharded` is never cleared and is set only when the first vindex appears; no vindex a table uses disappears |
| `VSchemaDDLProperties.RemoveFirstAt` | go/vt/topotools/vschema_ddl.go:206-208 | removing by name is the splice at the first matching position, so the rest keep their order |
| `VSchemaDDLProperties.SpliceNames` | go/vt/topotools/vschema_ddl.go:206-211 | cutting out the only entry with a name keeps the names distinct and removes that name and no other |
| `VSchemaDDLProperties.RemoveFirstNames` | go/vt/topotools/vschema_ddl.go:206-211 | in a list without duplicate names, removal takes out that name and no other and keeps the names distinct |
| `VSchemaDDLProperties.RemoveFirstAppended` | go/vt/topotools/vschema_ddl.go:191-208 | removing the entry just appended gives back the original list |
| `VSchemaDDLProperties.EmptyKeyspaceWellFormed` | go/vt/topotools/vschema_ddl.go:40-44 | the schema synthesised for a keyspace with none stored is well-formed |
| `VSchemaDDLProperties.CreateVindexPreservesWellFormed` | go/vt/topotools/vschema_ddl.go:66-85 | creating a vindex keeps the schema well-formed |
| `VSchemaDDLProperties.DropVindexPreservesWellFormed` | go/vt/topotools/vschema_ddl.go:87-104 | dropping a vindex leaves no column vindex naming a missing vindex |
| `VSchemaDDLProperties.TableChangePreservesWellFormed` | go/vt/topotools/vschema_ddl.go:106-128 | a change that keeps `vindexes` and `sharded` and gives every table either its old column-vindex list or an empty one keeps the schema well-formed; the table actions here and the sequence and auto-increment actions of lines 217-276 are such changes |
| `VSchemaDDLProperties.AddColumnVindexVindexes` | go/vt/topotools/vschema_ddl.go:139-169 | after a successful column-vindex addition the vindex exists, no vindex was removed, and `sharded` follows the first-vindex rule |
| `VSchemaDDLProperties.AssignTablePreservesWellFormed` | go/vt/topotools/vschema_ddl.go:171-195 | storing a table whose entries name existing vindexes without repeats, over a vindex map that only grew, keeps the schema well-formed |
| `VSchemaDDLProperties.AddColumnVindexPreservesWellFormed` | go/vt/topotools/vschema_ddl.go:171-195 | the attached entry names an existing vindex and does not repeat a name on its table |
| `VSchemaDDLProperties.DropColumnVindexPreservesWellFormed` | go/vt/topotools/vschema_ddl.go:199-215 | detaching keeps every remaining entry valid and distinct |
| `VSchemaDDLProperties.ApplyPreservesWellFormed` | go/vt/topotools/vschema_ddl.go:65-277 | every successful action keeps referential integrity, distinct names per table, and "has vindexes implies sharded" |
| `VSchemaDDLProperties.ApplyAllPreserves` | go/vt/topotools/vschema_ddl.go:33-280 | over any run of statements well-formedness is kept and the sharded flag is never cleared |
| `VSchemaDDLProperties.ReachableFromEmptyWellFormed` | go/vt/topotools/vschema_ddl.go:40-44 | every schema a run of statements builds from the empty one synthesised for a keyspace without a stored VSchema is well-formed |
| `VSchemaDDLProperties.CreateThenDropVindex` | go/vt/topotools/vschema_ddl.go:66-104 | on a well-formed schema, dropping a just-created vindex restores the schema except that `sharded` stays set |
| `VSchemaDDLProperties.AddThenDropTable` | go/vt/topotools/vschema_ddl.go:106-128 | dropping a just-added table restores the schema |
| `VSchemaDDLProperties.AddThenDropSequence` | go/vt/topotools/vschema_ddl.go:217-243 | dropping a just-added sequence restores the schema |
| `VSchemaDDLProperties.AddThenDropAutoIncrement` | go/vt/topotools/vschema_ddl.go:245-276 | clearing a just-set auto-increment restores the schema |
| `VSchemaDDLProperties.AddThenDropColumnVindex` | go/vt/topotools/vschema_ddl.go:130-215 | for a non-empty table name, detaching a just-attached existing vindex restores the schema when the table was absent or had column vindexes |
| `VSchemaDDLProperties.DropLastColumnVindexDropsTable` | go/vt/topotools/vschema_ddl.go:206-212 | for a non-empty table name, removing a table's only column vindex succeeds and deletes the table record |
| `VSchemaDDLProperties.VindexLifecycle` | go/vt/topotools/vschema_ddl.go:66-215 | create, duplicate create, attach, blocked drop, detach (table deleted), drop: the keyspace ends empty and still sharded |
| `Topotools.FindColumnVindex` | go/vt/topotools/vschema_ddl.go:206-214 | the scan finds a match exactly when the list holds the name, and then at the first matching position |
| `Topotools.KeyspaceVSchemaInfo.IsReferenced` | go/vt/topotools/vschema_ddl.go:93-100 | the scan over tables, in any order, answers exactly whether some table uses the vindex |
| `Topotools.KeyspaceVSchemaInfo.constructor` | go/vt/topotools/vschema_ddl.go:38-56 | the object holds the given schema |
| `Topotools.KeyspaceVSchemaInfo.CreateVindex` | go/vt/topotools/vschema_ddl.go:66-85 | the fields become `ApplyCreateVindex`'s schema, or stay as they were with its error |
| `Topotools.KeyspaceVSchemaInfo.DropVindex` | go/vt/topotools/vschema_ddl.go:87-104 | the fields become `ApplyDropVindex`'s schema, or stay as they were with its error |
| `Topotools.KeyspaceVSchemaInfo.AddTable` | go/vt/topotools/vschema_ddl.go:106-118 | the fields become `ApplyAddTable`'s schema, or stay as they were with its error |
| `Topotools.KeyspaceVSchemaInfo.DropTable` | go/vt/topotools/vschema_ddl.go:120-128 | the fields become `ApplyDropTable`'s schema, or stay as they were with its error |
| `Topotools.KeyspaceVSchemaInfo.AddColumnVindex` | go/vt/topotools/vschema_ddl.go:130-197 | success gives `ApplyAddColumnVindex`'s schema; on error the fields hold whatever the vindex half already recorded |
| `Topotools.KeyspaceVSchemaInfo.DropColumnVindex` | go/vt/topotools/vschema_ddl.go:199-215 | the fields become `ApplyDropColumnVindex`'s schema, or stay as they were with its error |
| `Topotools.KeyspaceVSchemaInfo.AddSequence` | go/vt/topotools/vschema_ddl.go:217-229 | the fields become `ApplyAddSequence`'s schema, or stay as they were with its error |
| `Topotools.KeyspaceVSchemaInfo.DropSequence` | go/vt/topotools/vschema_ddl.go:231-243 | the fields become `ApplyDropSequence`'s schema, or stay as they were with its error |
| `Topotools.KeyspaceVSchemaInfo.AddAutoIncrement` | go/vt/topotools/vschema_ddl.go:245-261 | the fields become `ApplyAddAutoIncrement`'s schema, or stay as they were with its error |
| `Topotools.KeyspaceVSchemaInfo.DropAutoIncrement` | go/vt/topotools/vschema_ddl.go:263-276 | the fields become `ApplyDropAutoIncrement`'s schema, or stay as they were with its error |
| `Topotools.ApplyVSchemaDDL` | go/vt/topotools/vschema_ddl.go:33-280 | a missing server gives `ReadOnlyTopology`, an unreadable VSchema gives `VSchemaUnreadable`, and otherwise the result is `Apply` on the stored schema, or on the empty one when none is stored |

## Left out

- Topology server access (lines 34-48) is an input here. `ApplyVSchemaDDL` takes `None` for a nil server and otherwise what `GetVSchema` answers: a schema, NoNode, or another error. The keyspace name, the context and the wrapping of errors are not modelled.
- Lines 50-56 give nil `Tables` and `Vindexes` maps an empty value. Dafny maps have no nil value, so in the model these lines change nothing.
- Error codes and message text are left out. Each error is one `Error` kind; the table named in the vindex-in-use message is not returned.
- The `sqlparser` helpers (`ParseParams`, `String`, `NotEmpty`, `IsEmpty`) are in a package this model does not include. Their results are inputs: owner, params map, type string, column list, sequence text, table name. The column copy loop at lines 187-190 only converts names to strings, so it is the identity here.
- The unexpected-action error at line 279 cannot happen with the closed `Action` datatype.
- Nil pointers stored in the schema are not modelled: a nil table in `Tables`, a nil vindex in `Vindexes`, and a nil entry in a table's column-vindex list. The source would dereference them (lines 96, 144, 182, 207). The model holds only values, so an entry is either present or absent.
- Table fields that no action touches (columns, pinned, source and so on) are not modelled.
- The keyspace-level VSchema fields other than `sharded`, `tables` and `vindexes`, and the deprecated single `Column` field of a column vindex, are not modelled. No action reads or writes them.
- Concurrency and locking between reading and writing back the VSchema are the caller's job and are not in this code.
- `VSchemaDDLProperties.WellFormed` is not required of a stored schema, because the source never checks it. The lemmas only show that every action keeps it.
