/**
 The reference definition of a VSchema DDL statement: for each action, the
 schema it produces from the old one, or the error it reports. Nothing is
 partially applied here: an action either yields the whole new schema or an
 error.
 */
module VSchemaDDL {
  import opened VSchema

  // ---------------------------------------------------------------------
  // Maps

  /** `m'` is `m` with key `k` bound to `v` (added or replaced); no other entry changes. */
  ghost predicate Assigned<V>(m: map<string, V>, m': map<string, V>, k: string, v: V)
  {
    && m'.Keys == m.Keys + {k}
    && m'[k] == v
    && forall j | j in m && j != k :: m'[j] == m[j]
  }

  /** `m'` is `m` without key `k`; no other entry changes. */
  ghost predicate Removed<V>(m: map<string, V>, m': map<string, V>, k: string)
  {
    && m'.Keys == m.Keys - {k}
    && forall j | j in m' :: m'[j] == m[j]
  }

  // ---------------------------------------------------------------------
  // Column-vindex lists

  predicate HasColumnVindex(cvs: seq<ColumnVindex>, name: string)
  {
    exists i | 0 <= i < |cvs| :: cvs[i].name == name
  }

  /** `i` is the position of the first entry called `name`. */
  ghost predicate FirstIndex(cvs: seq<ColumnVindex>, name: string, i: nat)
  {
    i < |cvs| && cvs[i].name == name && forall j | 0 <= j < i :: cvs[j].name != name
  }

  /** No two entries of the list name the same vindex. */
  ghost predicate DistinctNames(cvs: seq<ColumnVindex>)
  {
    forall i, j | 0 <= i < j < |cvs| :: cvs[i].name != cvs[j].name
  }

  /** The list without its first entry called `name`. */
  function RemoveFirst(cvs: seq<ColumnVindex>, name: string): (r: seq<ColumnVindex>)
    ensures !HasColumnVindex(cvs, name) ==> r == cvs
    ensures HasColumnVindex(cvs, name) ==> |r| == |cvs| - 1
    ensures forall x | x in r :: x in cvs
  {
    if cvs == [] then []
    else if cvs[0].name == name then cvs[1..]
    else
      assert HasColumnVindex(cvs, name) ==> HasColumnVindex(cvs[1..], name) by {
        if HasColumnVindex(cvs, name) {
          var i :| 0 <= i < |cvs| && cvs[i].name == name;
          assert cvs[1..][i - 1].name == name;
        }
      }
      [cvs[0]] + RemoveFirst(cvs[1..], name)
  }

  /** Whether some table still lists vindex `name` among its column vindexes. */
  predicate InUse(tables: map<string, Table>, name: string)
  {
    exists t | t in tables :: HasColumnVindex(tables[t].columnVindexes, name)
  }

  // ---------------------------------------------------------------------
  // Shared steps

  /** The table record a column-vindex statement refers to: none when the statement's table name is empty. */
  function TargetTable(tables: map<string, Table>, name: string): Option<Table>
  {
    if name != "" && name in tables then Some(tables[name]) else None
  }

  function NewVindex(spec: VindexSpec): Vindex
  {
    Vindex(spec.vindexType, spec.params, spec.owner)
  }

  /** Whether a stored vindex has the definition a statement gives: type, owner and parameter entries all equal. */
  predicate SameDefinition(v: Vindex, spec: VindexSpec)
  {
    v.vindexType == spec.vindexType && v.owner == spec.owner && Entries(v.params) == Entries(spec.params)
  }

  /**
   Whether two parameter maps count as different: they differ unless both
   are empty, whatever mix of nil and non-nil empty maps that is.
   */
  predicate ParamsConflict(stored: Params, given: Params): (r: bool)
    ensures r <==> Entries(stored) != Entries(given)
  {
    var storedLen := match stored case None => 0 case Some(m) => |m|;
    var givenLen := match given case None => 0 case Some(m) => |m|;
    (storedLen != 0 || givenLen != 0) && stored != given
  }

  /** `after` obeys the first-vindex rule: the flag is set when `before` had no vindex, and kept otherwise. */
  ghost predicate FirstVindexSetsSharded(before: Keyspace, after: Keyspace)
  {
    && (|before.vindexes| == 0 ==> after.sharded)
    && (|before.vindexes| != 0 ==> after.sharded == before.sharded)
  }

  /** Records a new vindex, setting the sharded flag when it is the keyspace's first. */
  function WithVindex(ks: Keyspace, name: string, v: Vindex): (r: Keyspace)
    ensures r.tables == ks.tables
    ensures Assigned(ks.vindexes, r.vindexes, name, v)
    ensures FirstVindexSetsSharded(ks, r)
  {
    Keyspace(if |ks.vindexes| == 0 then true else ks.sharded, ks.tables, ks.vindexes[name := v])
  }

  // ---------------------------------------------------------------------
  // The ten actions

  function ApplyCreateVindex(ks: Keyspace, spec: VindexSpec): (r: Result<Keyspace>)
    ensures r.Err? <==> spec.name in ks.vindexes
    ensures r.Err? ==> r.error == VindexAlreadyExists
    ensures r.Ok? ==> && r.value.tables == ks.tables
                      && Assigned(ks.vindexes, r.value.vindexes, spec.name, NewVindex(spec))
                      && FirstVindexSetsSharded(ks, r.value)
  {
    if spec.name in ks.vindexes then Err(VindexAlreadyExists)
    else Ok(WithVindex(ks, spec.name, NewVindex(spec)))
  }

  function ApplyDropVindex(ks: Keyspace, name: string): (r: Result<Keyspace>)
    ensures name !in ks.vindexes ==> r == Err(VindexNotFound)
    ensures name in ks.vindexes && InUse(ks.tables, name) ==> r == Err(VindexInUse)
    ensures r.Ok? <==> name in ks.vindexes && !InUse(ks.tables, name)
    ensures r.Ok? ==> && r.value.sharded == ks.sharded
                      && r.value.tables == ks.tables
                      && Removed(ks.vindexes, r.value.vindexes, name)
  {
    if name !in ks.vindexes then Err(VindexNotFound)
    else if InUse(ks.tables, name) then Err(VindexInUse)
    else Ok(ks.(vindexes := ks.vindexes - {name}))
  }

  function ApplyAddTable(ks: Keyspace, name: string): (r: Result<Keyspace>)
    ensures ks.sharded ==> r == Err(UnsupportedOnSharded)
    ensures !ks.sharded && name in ks.tables ==> r == Err(TableAlreadyExists)
    ensures r.Ok? <==> !ks.sharded && name !in ks.tables
    ensures r.Ok? ==> && r.value.sharded == ks.sharded
                      && r.value.vindexes == ks.vindexes
                      && Assigned(ks.tables, r.value.tables, name, EmptyTable)
  {
    if ks.sharded then Err(UnsupportedOnSharded)
    else if name in ks.tables then Err(TableAlreadyExists)
    else Ok(ks.(tables := ks.tables[name := EmptyTable]))
  }

  /** Unlike dropping a sequence, dropping a table is allowed on a sharded keyspace. */
  function ApplyDropTable(ks: Keyspace, name: string): (r: Result<Keyspace>)
    ensures r.Ok? <==> name in ks.tables
    ensures r.Err? ==> r.error == TableNotFound
    ensures r.Ok? ==> && r.value.sharded == ks.sharded
                      && r.value.vindexes == ks.vindexes
                      && Removed(ks.tables, r.value.tables, name)
  {
    if name !in ks.tables then Err(TableNotFound)
    else Ok(ks.(tables := ks.tables - {name}))
  }

  /**
   The vindex half of adding a column vindex. With a type given, an absent
   vindex is created and a present one must have the same definition;
   without a type, the vindex must already exist.
   */
  function EnsureVindex(ks: Keyspace, spec: VindexSpec): (r: Result<Keyspace>)
    ensures r.Ok? ==> r.value.tables == ks.tables
    ensures spec.vindexType == "" ==> && (r.Ok? <==> spec.name in ks.vindexes)
                                      && (r.Ok? ==> r.value == ks)
                                      && (r.Err? ==> r.error == VindexNotFound)
    ensures spec.vindexType != "" && spec.name in ks.vindexes ==>
              && (r.Ok? <==> SameDefinition(ks.vindexes[spec.name], spec))
              && (r.Ok? ==> r.value == ks)
    ensures spec.vindexType != "" && spec.name !in ks.vindexes ==>
              && r.Ok?
              && Assigned(ks.vindexes, r.value.vindexes, spec.name, NewVindex(spec))
              && FirstVindexSetsSharded(ks, r.value)
    // the order in which a differing definition is reported
    ensures r == Err(TypeMismatch) <==>
              spec.vindexType != "" && spec.name in ks.vindexes && ks.vindexes[spec.name].vindexType != spec.vindexType
    ensures r == Err(OwnerMismatch) <==>
              && spec.vindexType != "" && spec.name in ks.vindexes
              && ks.vindexes[spec.name].vindexType == spec.vindexType
              && ks.vindexes[spec.name].owner != spec.owner
    ensures r == Err(ParamsMismatch) <==>
              && spec.vindexType != "" && spec.name in ks.vindexes
              && ks.vindexes[spec.name].vindexType == spec.vindexType
              && ks.vindexes[spec.name].owner == spec.owner
              && Entries(ks.vindexes[spec.name].params) != Entries(spec.params)
  {
    if spec.vindexType != "" then
      if spec.name in ks.vindexes then
        var v := ks.vindexes[spec.name];
        if v.vindexType != spec.vindexType then Err(TypeMismatch)
        else if v.owner != spec.owner then Err(OwnerMismatch)
        else if ParamsConflict(v.params, spec.params) then Err(ParamsMismatch)
        else Ok(ks)
      else Ok(WithVindex(ks, spec.name, NewVindex(spec)))
    else if spec.name !in ks.vindexes then Err(VindexNotFound)
    else Ok(ks)
  }

  /** The table record a column vindex is added to: the stored one, or a new empty one. */
  function AttachBase(tables: map<string, Table>, tableName: string): Table
  {
    match TargetTable(tables, tableName)
    case None => EmptyTable
    case Some(t) => t
  }

  /** The table half of adding a column vindex: append the new entry to the table's list. */
  function AttachColumnVindex(ks: Keyspace, tableName: string, name: string, columns: seq<string>): (r: Result<Keyspace>)
    ensures tableName != "" && tableName in ks.tables ==> AttachBase(ks.tables, tableName) == ks.tables[tableName]
    ensures !(tableName != "" && tableName in ks.tables) ==> AttachBase(ks.tables, tableName) == EmptyTable
    ensures var base := AttachBase(ks.tables, tableName);
            && (r.Err? <==> HasColumnVindex(base.columnVindexes, name))
            && (r.Err? ==> r.error == VindexAlreadyOnTable)
            && (r.Ok? ==> && r.value.sharded == ks.sharded
                          && r.value.vindexes == ks.vindexes
                          && Assigned(ks.tables, r.value.tables, tableName,
                                      base.(columnVindexes := base.columnVindexes + [ColumnVindex(name, columns)])))
  {
    var base := AttachBase(ks.tables, tableName);
    if HasColumnVindex(base.columnVindexes, name) then Err(VindexAlreadyOnTable)
    else Ok(ks.(tables := ks.tables[tableName := base.(columnVindexes := base.columnVindexes + [ColumnVindex(name, columns)])]))
  }

  /**
   Adding a column vindex: first the vindex half (create, reuse or reject
   the vindex), then the table half (append the entry to the table's list).
   */
  function ApplyAddColumnVindex(ks: Keyspace, tableName: string, spec: VindexSpec, columns: seq<string>): (r: Result<Keyspace>)
    ensures var base := AttachBase(ks.tables, tableName);
            r.Err? <==> EnsureVindex(ks, spec).Err? || HasColumnVindex(base.columnVindexes, spec.name)
    // a vindex-half failure is reported before the table is looked at
    ensures EnsureVindex(ks, spec).Err? ==> r.Err? && r.error == EnsureVindex(ks, spec).error
    ensures EnsureVindex(ks, spec).Ok? && r.Err? ==> r.error == VindexAlreadyOnTable
    ensures r.Ok? ==>
              var base := AttachBase(ks.tables, tableName);
              Assigned(ks.tables, r.value.tables, tableName,
                       base.(columnVindexes := base.columnVindexes + [ColumnVindex(spec.name, columns)]))
    ensures r.Ok? && spec.name in ks.vindexes ==> r.value.vindexes == ks.vindexes && r.value.sharded == ks.sharded
    ensures r.Ok? && spec.name !in ks.vindexes ==>
              && spec.vindexType != ""
              && Assigned(ks.vindexes, r.value.vindexes, spec.name, NewVindex(spec))
              && FirstVindexSetsSharded(ks, r.value)
  {
    match EnsureVindex(ks, spec)
    case Err(e) => Err(e)
    case Ok(withVindex) => AttachColumnVindex(withVindex, tableName, spec.name, columns)
  }

  function ApplyDropColumnVindex(ks: Keyspace, tableName: string, name: string): (r: Result<Keyspace>)
    ensures !(tableName != "" && tableName in ks.tables) ==> r == Err(TableNotFound)
    ensures tableName != "" && tableName in ks.tables && !HasColumnVindex(ks.tables[tableName].columnVindexes, name) ==>
              r == Err(VindexNotOnTable)
    ensures r.Ok? <==> tableName != "" && tableName in ks.tables && HasColumnVindex(ks.tables[tableName].columnVindexes, name)
    ensures r.Ok? ==>
              var t := ks.tables[tableName];
              var rest := RemoveFirst(t.columnVindexes, name);
              && r.value.sharded == ks.sharded
              && r.value.vindexes == ks.vindexes
              && (rest == [] ==> Removed(ks.tables, r.value.tables, tableName))
              && (rest != [] ==> Assigned(ks.tables, r.value.tables, tableName, t.(columnVindexes := rest)))
  {
    match TargetTable(ks.tables, tableName)
    case None => Err(TableNotFound)
    case Some(t) =>
      if !HasColumnVindex(t.columnVindexes, name) then Err(VindexNotOnTable)
      else
        var rest := RemoveFirst(t.columnVindexes, name);
        if rest == [] then Ok(ks.(tables := ks.tables - {tableName}))
        else Ok(ks.(tables := ks.tables[tableName := t.(columnVindexes := rest)]))
  }

  function ApplyAddSequence(ks: Keyspace, name: string): (r: Result<Keyspace>)
    ensures ks.sharded ==> r == Err(UnsupportedOnSharded)
    ensures !ks.sharded && name in ks.tables ==> r == Err(TableAlreadyExists)
    ensures r.Ok? <==> !ks.sharded && name !in ks.tables
    ensures r.Ok? ==> && r.value.sharded == ks.sharded
                      && r.value.vindexes == ks.vindexes
                      && Assigned(ks.tables, r.value.tables, name, SequenceTable)
  {
    if ks.sharded then Err(UnsupportedOnSharded)
    else if name in ks.tables then Err(TableAlreadyExists)
    else Ok(ks.(tables := ks.tables[name := SequenceTable]))
  }

  function ApplyDropSequence(ks: Keyspace, name: string): (r: Result<Keyspace>)
    ensures ks.sharded ==> r == Err(UnsupportedOnSharded)
    ensures !ks.sharded && name !in ks.tables ==> r == Err(TableNotFound)
    ensures r.Ok? <==> !ks.sharded && name in ks.tables
    ensures r.Ok? ==> && r.value.sharded == ks.sharded
                      && r.value.vindexes == ks.vindexes
                      && Removed(ks.tables, r.value.tables, name)
  {
    if ks.sharded then Err(UnsupportedOnSharded)
    else if name !in ks.tables then Err(TableNotFound)
    else Ok(ks.(tables := ks.tables - {name}))
  }

  function ApplyAddAutoIncrement(ks: Keyspace, name: string, autoInc: AutoIncrement): (r: Result<Keyspace>)
    ensures name !in ks.tables ==> r == Err(TableNotFound)
    ensures name in ks.tables && ks.tables[name].autoIncrement.Some? ==> r == Err(AutoIncAlreadySet)
    ensures r.Ok? <==> name in ks.tables && ks.tables[name].autoIncrement.None?
    ensures r.Ok? ==> && r.value.sharded == ks.sharded
                      && r.value.vindexes == ks.vindexes
                      && Assigned(ks.tables, r.value.tables, name, ks.tables[name].(autoIncrement := Some(autoInc)))
  {
    if name !in ks.tables then Err(TableNotFound)
    else if ks.tables[name].autoIncrement.Some? then Err(AutoIncAlreadySet)
    else Ok(ks.(tables := ks.tables[name := ks.tables[name].(autoIncrement := Some(autoInc))]))
  }

  function ApplyDropAutoIncrement(ks: Keyspace, name: string): (r: Result<Keyspace>)
    ensures name !in ks.tables ==> r == Err(TableNotFound)
    ensures name in ks.tables && ks.tables[name].autoIncrement.None? ==> r == Err(NoAutoInc)
    ensures r.Ok? <==> name in ks.tables && ks.tables[name].autoIncrement.Some?
    ensures r.Ok? ==> && r.value.sharded == ks.sharded
                      && r.value.vindexes == ks.vindexes
                      && Assigned(ks.tables, r.value.tables, name, ks.tables[name].(autoIncrement := None))
  {
    if name !in ks.tables then Err(TableNotFound)
    else if ks.tables[name].autoIncrement.None? then Err(NoAutoInc)
    else Ok(ks.(tables := ks.tables[name := ks.tables[name].(autoIncrement := None)]))
  }

  // ---------------------------------------------------------------------
  // One statement

  /**
   The schema one action produces from `ks`. Whatever the action, the
   sharded flag is only ever set, and only by the keyspace's first vindex,
   and no vindex that a table still uses disappears.
   */
  function Apply(ks: Keyspace, a: Action): (r: Result<Keyspace>)
    ensures r.Ok? ==> r.value.sharded == (ks.sharded || (|ks.vindexes| == 0 && |r.value.vindexes| != 0))
    ensures r.Ok? ==> forall n | n in ks.vindexes && n !in r.value.vindexes :: !InUse(ks.tables, n)
  {
    match a
    case CreateVindex(spec) => ApplyCreateVindex(ks, spec)
    case DropVindex(name) => ApplyDropVindex(ks, name)
    case AddTable(name) => ApplyAddTable(ks, name)
    case DropTable(name) => ApplyDropTable(ks, name)
    case AddColumnVindex(tableName, spec, columns) => ApplyAddColumnVindex(ks, tableName, spec, columns)
    case DropColumnVindex(tableName, name) => ApplyDropColumnVindex(ks, tableName, name)
    case AddSequence(name) => ApplyAddSequence(ks, name)
    case DropSequence(name) => ApplyDropSequence(ks, name)
    case AddAutoIncrement(name, autoInc) => ApplyAddAutoIncrement(ks, name, autoInc)
    case DropAutoIncrement(name) => ApplyDropAutoIncrement(ks, name)
  }
}
