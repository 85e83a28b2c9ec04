/**
 Applying one ALTER VSCHEMA statement to a keyspace's VSchema, the way the
 topology tools do it: the fetched schema object is changed in place by the
 handler for the statement's action, and returned when the handler reports
 no error. Each handler is proved against the reference definition in
 module VSchemaDDL.
 */
module Topotools {
  import opened VSchema
  import opened VSchemaDDL
  import VSchemaDDLProperties

  /**
   What a handler left behind, relative to the reference result `expected`:
   on success the new schema and no error; on failure the same error and
   the schema as it was.
   */
  ghost predicate Reports(before: Keyspace, after: Keyspace, err: Option<Error>, expected: Result<Keyspace>)
  {
    match expected
    case Ok(ks) => err == None && after == ks
    case Err(e) => err == Some(e) && after == before
  }

  /**
   Scans a table's column vindexes, in order, for the first one called
   `name`.
   */
  method FindColumnVindex(cvs: seq<ColumnVindex>, name: string) returns (found: bool, index: nat)
    ensures found <==> HasColumnVindex(cvs, name)
    ensures found ==> FirstIndex(cvs, name, index)
  {
    index := 0;
    while index < |cvs|
      invariant index <= |cvs|
      invariant forall j | 0 <= j < index :: cvs[j].name != name
    {
      if cvs[index].name == name {
        return true, index;
      }
      index := index + 1;
    }
    return false, 0;
  }

  /** The VSchema of one keyspace, fetched from the topology server and updated in place. */
  class KeyspaceVSchemaInfo {
    var sharded: bool
    var tables: map<string, Table>
    var vindexes: map<string, Vindex>

    function Value(): Keyspace
      reads this
    {
      Keyspace(sharded, tables, vindexes)
    }

    constructor (ks: Keyspace)
      ensures Value() == ks
    {
      sharded, tables, vindexes := ks.sharded, ks.tables, ks.vindexes;
    }

    /**
     Whether some table still lists vindex `name`. The tables are visited in
     no particular order, as a Go map range visits them; the scan stops at
     the first table that uses the vindex.
     */
    method IsReferenced(name: string) returns (referenced: bool)
      ensures referenced <==> InUse(tables, name)
    {
      var unvisited := tables.Keys;
      while unvisited != {}
        invariant unvisited <= tables.Keys
        invariant forall t | t in tables && t !in unvisited :: !HasColumnVindex(tables[t].columnVindexes, name)
        decreases unvisited
      {
        var t :| t in unvisited;
        var found, _ := FindColumnVindex(tables[t].columnVindexes, name);
        if found {
          return true;
        }
        unvisited := unvisited - {t};
      }
      return false;
    }

    method CreateVindex(spec: VindexSpec) returns (err: Option<Error>)
      modifies this
      ensures Reports(old(Value()), Value(), err, ApplyCreateVindex(old(Value()), spec))
    {
      if spec.name in vindexes {
        return Some(VindexAlreadyExists);
      }
      // the keyspace's first vindex makes it sharded
      if |vindexes| == 0 {
        sharded := true;
      }
      vindexes := vindexes[spec.name := NewVindex(spec)];
      return None;
    }

    method DropVindex(name: string) returns (err: Option<Error>)
      modifies this
      ensures Reports(old(Value()), Value(), err, ApplyDropVindex(old(Value()), name))
    {
      if name !in vindexes {
        return Some(VindexNotFound);
      }
      var referenced := IsReferenced(name);
      if referenced {
        return Some(VindexInUse);
      }
      vindexes := vindexes - {name};
      return None;
    }

    method AddTable(name: string) returns (err: Option<Error>)
      modifies this
      ensures Reports(old(Value()), Value(), err, ApplyAddTable(old(Value()), name))
    {
      if sharded {
        return Some(UnsupportedOnSharded);
      }
      if name in tables {
        return Some(TableAlreadyExists);
      }
      tables := tables[name := EmptyTable];
      return None;
    }

    method DropTable(name: string) returns (err: Option<Error>)
      modifies this
      ensures Reports(old(Value()), Value(), err, ApplyDropTable(old(Value()), name))
    {
      if name !in tables {
        return Some(TableNotFound);
      }
      tables := tables - {name};
      return None;
    }

    /**
     Adds a column vindex to a table. As in the source, a vindex this
     statement creates is recorded before the table is checked, so a
     failure at the table leaves that vindex (and the sharded flag) behind
     in the object; the caller discards the object on any error.
     */
    method AddColumnVindex(tableName: string, spec: VindexSpec, columns: seq<string>) returns (err: Option<Error>)
      modifies this
      ensures err.None? ==> ApplyAddColumnVindex(old(Value()), tableName, spec, columns) == Ok(Value())
      ensures err.Some? ==> ApplyAddColumnVindex(old(Value()), tableName, spec, columns) == Err(err.value)
      ensures err.Some? ==> Value() == match EnsureVindex(old(Value()), spec)
                                       case Ok(withVindex) => withVindex
                                       case Err(_) => old(Value())
    {
      var table := TargetTable(tables, tableName);
      if spec.vindexType != "" {
        if spec.name in vindexes {
          var vindex := vindexes[spec.name];
          if vindex.vindexType != spec.vindexType {
            return Some(TypeMismatch);
          }
          if vindex.owner != spec.owner {
            return Some(OwnerMismatch);
          }
          if ParamsConflict(vindex.params, spec.params) {
            return Some(ParamsMismatch);
          }
        } else {
          // the keyspace's first vindex makes it sharded
          if |vindexes| == 0 {
            sharded := true;
          }
          vindexes := vindexes[spec.name := NewVindex(spec)];
        }
      } else if spec.name !in vindexes {
        return Some(VindexNotFound);
      }
      var t := if table.Some? then table.value else EmptyTable;
      var duplicate, _ := FindColumnVindex(t.columnVindexes, spec.name);
      if duplicate {
        return Some(VindexAlreadyOnTable);
      }
      t := t.(columnVindexes := t.columnVindexes + [ColumnVindex(spec.name, columns)]);
      tables := tables[tableName := t];
      return None;
    }

    method DropColumnVindex(tableName: string, name: string) returns (err: Option<Error>)
      modifies this
      ensures Reports(old(Value()), Value(), err, ApplyDropColumnVindex(old(Value()), tableName, name))
    {
      var table := TargetTable(tables, tableName);
      if table.None? {
        return Some(TableNotFound);
      }
      var t := table.value;
      var found, i := FindColumnVindex(t.columnVindexes, name);
      if !found {
        return Some(VindexNotOnTable);
      }
      var rest := t.columnVindexes[..i] + t.columnVindexes[i + 1..];
      VSchemaDDLProperties.RemoveFirstAt(t.columnVindexes, name, i);
      // a table left without column vindexes is deleted
      if |rest| == 0 {
        tables := tables - {tableName};
      } else {
        tables := tables[tableName := t.(columnVindexes := rest)];
      }
      return None;
    }

    method AddSequence(name: string) returns (err: Option<Error>)
      modifies this
      ensures Reports(old(Value()), Value(), err, ApplyAddSequence(old(Value()), name))
    {
      if sharded {
        return Some(UnsupportedOnSharded);
      }
      if name in tables {
        return Some(TableAlreadyExists);
      }
      tables := tables[name := SequenceTable];
      return None;
    }

    method DropSequence(name: string) returns (err: Option<Error>)
      modifies this
      ensures Reports(old(Value()), Value(), err, ApplyDropSequence(old(Value()), name))
    {
      if sharded {
        return Some(UnsupportedOnSharded);
      }
      if name !in tables {
        return Some(TableNotFound);
      }
      tables := tables - {name};
      return None;
    }

    method AddAutoIncrement(name: string, autoInc: AutoIncrement) returns (err: Option<Error>)
      modifies this
      ensures Reports(old(Value()), Value(), err, ApplyAddAutoIncrement(old(Value()), name, autoInc))
    {
      if name !in tables {
        return Some(TableNotFound);
      }
      var t := tables[name];
      if t.autoIncrement.Some? {
        return Some(AutoIncAlreadySet);
      }
      tables := tables[name := t.(autoIncrement := Some(autoInc))];
      return None;
    }

    method DropAutoIncrement(name: string) returns (err: Option<Error>)
      modifies this
      ensures Reports(old(Value()), Value(), err, ApplyDropAutoIncrement(old(Value()), name))
    {
      if name !in tables {
        return Some(TableNotFound);
      }
      var t := tables[name];
      if t.autoIncrement.None? {
        return Some(NoAutoInc);
      }
      tables := tables[name := t.(autoIncrement := None)];
      return None;
    }
  }

  /**
   Applies one statement to the VSchema that `topoServer` holds for the
   keyspace: `None` stands for a missing (read-only) server connection, and
   `Some(lookup)` for what the server answers. A keyspace without a stored
   VSchema starts from the empty one. The result is the reference
   definition's, whatever the handler left behind on an error.
   */
  method ApplyVSchemaDDL(topoServer: Option<Lookup>, action: Action) returns (r: Result<Keyspace>)
    ensures topoServer == None ==> r == Err(ReadOnlyTopology)
    ensures topoServer == Some(Unreadable) ==> r == Err(VSchemaUnreadable)
    ensures topoServer == Some(NoNode) ==> r == Apply(EmptyKeyspace, action)
    ensures topoServer.Some? && topoServer.value.Found? ==> r == Apply(topoServer.value.stored, action)
  {
    if topoServer.None? {
      return Err(ReadOnlyTopology);
    }
    var current: Keyspace;
    match topoServer.value {
      case Found(stored) => current := stored;
      case NoNode => current := EmptyKeyspace;
      case Unreadable => return Err(VSchemaUnreadable);
    }
    var ksvs := new KeyspaceVSchemaInfo(current);
    var err: Option<Error>;
    match action {
      case CreateVindex(spec) => err := ksvs.CreateVindex(spec);
      case DropVindex(name) => err := ksvs.DropVindex(name);
      case AddTable(name) => err := ksvs.AddTable(name);
      case DropTable(name) => err := ksvs.DropTable(name);
      case AddColumnVindex(tableName, spec, columns) => err := ksvs.AddColumnVindex(tableName, spec, columns);
      case DropColumnVindex(tableName, name) => err := ksvs.DropColumnVindex(tableName, name);
      case AddSequence(name) => err := ksvs.AddSequence(name);
      case DropSequence(name) => err := ksvs.DropSequence(name);
      case AddAutoIncrement(name, autoInc) => err := ksvs.AddAutoIncrement(name, autoInc);
      case DropAutoIncrement(name) => err := ksvs.DropAutoIncrement(name);
    }
    if err.Some? {
      return Err(err.value);
    }
    return Ok(ksvs.Value());
  }
}
