/**
 The value types a VSchema DDL statement works on: the VSchema of one
 keyspace (tables, vindexes, the sharded flag) and the already-parsed
 ALTER VSCHEMA statement that changes it.
 */
module VSchema {

  datatype Option<T> = None | Some(value: T)

  /** A Go `map[string]string` that may be nil: `None` is the nil map. */
  type Params = Option<map<string, string>>

  /** The entries of a parameter map; a nil map has none. */
  function Entries(p: Params): map<string, string>
  {
    match p
    case None => map[]
    case Some(m) => m
  }

  /** A named routing function of the keyspace; `owner` is "" when unowned. */
  datatype Vindex = Vindex(vindexType: string, params: Params, owner: string)

  /** One use of a vindex by a table, on the given columns in order. */
  datatype ColumnVindex = ColumnVindex(name: string, columns: seq<string>)

  /** The auto-increment column of a table and the sequence that feeds it. */
  datatype AutoIncrement = AutoIncrement(column: string, sequence: string)

  /** `tableType` is "" for an ordinary table and "sequence" for a sequence table. */
  datatype Table = Table(tableType: string, columnVindexes: seq<ColumnVindex>, autoIncrement: Option<AutoIncrement>)

  /** The VSchema of one keyspace. */
  datatype Keyspace = Keyspace(sharded: bool, tables: map<string, Table>, vindexes: map<string, Vindex>)

  const EmptyTable: Table := Table("", [], None)
  const SequenceTable: Table := Table("sequence", [], None)

  /** The schema used when the keyspace has none stored yet. */
  const EmptyKeyspace: Keyspace := Keyspace(false, map[], map[])

  /**
   The vindex part of a statement. The type is "" when the statement names
   none; `owner` and `params` are what the statement's parameter list
   decodes to.
   */
  datatype VindexSpec = VindexSpec(name: string, vindexType: string, owner: string, params: Params)

  /** The ten ALTER VSCHEMA actions, each with the fields its handler reads. */
  datatype Action =
    | CreateVindex(spec: VindexSpec)
    | DropVindex(vindex: string)
    | AddTable(table: string)
    | DropTable(table: string)
    | AddColumnVindex(table: string, spec: VindexSpec, columns: seq<string>)
    | DropColumnVindex(table: string, vindex: string)
    | AddSequence(table: string)
    | DropSequence(table: string)
    | AddAutoIncrement(table: string, autoInc: AutoIncrement)
    | DropAutoIncrement(table: string)

  datatype Error =
    | ReadOnlyTopology        // no topology server connection to write through
    | VSchemaUnreadable       // fetching the stored VSchema failed for a reason other than absence
    | VindexAlreadyExists
    | VindexNotFound
    | VindexInUse             // a table still lists the vindex among its column vindexes
    | UnsupportedOnSharded
    | TableAlreadyExists
    | TableNotFound
    | TypeMismatch
    | OwnerMismatch
    | ParamsMismatch
    | VindexAlreadyOnTable
    | VindexNotOnTable
    | AutoIncAlreadySet
    | NoAutoInc

  datatype Result<T> = Ok(value: T) | Err(error: Error)

  /** What the topology server answers when asked for a keyspace's VSchema. */
  datatype Lookup = Found(stored: Keyspace) | NoNode | Unreadable
}
