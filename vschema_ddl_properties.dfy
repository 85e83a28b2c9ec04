/**
 Properties of the reference definition that relate several actions or hold
 across all of them: how column-vindex lists shrink, which schema invariants
 every action keeps, and which actions undo each other.
 */
module VSchemaDDLProperties {
  import opened VSchema
  import opened VSchemaDDL

  // ---------------------------------------------------------------------
  // Removing a column vindex from a list

  /** Removing by name takes out exactly the entry at the first matching position and keeps the rest in order. */
  lemma {:induction false} RemoveFirstAt(cvs: seq<ColumnVindex>, name: string, i: nat)
    requires FirstIndex(cvs, name, i)
    ensures RemoveFirst(cvs, name) == cvs[..i] + cvs[i + 1..]
  {
    if i > 0 {
      assert FirstIndex(cvs[1..], name, i - 1);
      RemoveFirstAt(cvs[1..], name, i - 1);
      assert cvs[1..][..i - 1] == cvs[1..i];
      assert cvs[1..][i - 1 + 1..] == cvs[i + 1..];
      assert [cvs[0]] + cvs[1..i] == cvs[..i];
    }
  }

  /** Every list that holds a name holds it at a first position. */
  lemma FirstIndexExists(cvs: seq<ColumnVindex>, name: string) returns (i: nat)
    requires HasColumnVindex(cvs, name)
    ensures FirstIndex(cvs, name, i)
  {
    var k :| 0 <= k < |cvs| && cvs[k].name == name;
    i := 0;
    while cvs[i].name != name
      invariant i <= k
      invariant forall j | 0 <= j < i :: cvs[j].name != name
      decreases k - i
    {
      i := i + 1;
    }
  }

  /** Position `k` of a list with position `i` cut out is position `k` or `k + 1` of the list. */
  lemma SpliceAt(cvs: seq<ColumnVindex>, i: nat) returns (r: seq<ColumnVindex>)
    requires i < |cvs|
    ensures r == cvs[..i] + cvs[i + 1..]
    ensures |r| == |cvs| - 1
    ensures forall k | 0 <= k < |r| :: r[k] == cvs[if k < i then k else k + 1]
  {
    r := cvs[..i] + cvs[i + 1..];
  }

  /** Cutting the only entry called `name` out of a list without duplicates removes that name and no other. */
  lemma SpliceNames(cvs: seq<ColumnVindex>, name: string, i: nat)
    requires DistinctNames(cvs) && FirstIndex(cvs, name, i)
    ensures DistinctNames(cvs[..i] + cvs[i + 1..])
    ensures forall n :: HasColumnVindex(cvs[..i] + cvs[i + 1..], n) <==> HasColumnVindex(cvs, n) && n != name
  {
    var r := SpliceAt(cvs, i);
    forall a, b | 0 <= a < b < |r|
      ensures r[a].name != r[b].name
    {
      assert r[a] == cvs[if a < i then a else a + 1];
      assert r[b] == cvs[if b < i then b else b + 1];
    }
    forall n
      ensures HasColumnVindex(r, n) <==> HasColumnVindex(cvs, n) && n != name
    {
      if HasColumnVindex(r, n) {
        var k :| 0 <= k < |r| && r[k].name == n;
        assert r[k] == cvs[if k < i then k else k + 1];
      }
      if HasColumnVindex(cvs, n) && n != name {
        var k :| 0 <= k < |cvs| && cvs[k].name == n;
        assert k != i;
        assert r[if k < i then k else k - 1].name == n;
      }
    }
  }

  /** In a list without duplicate names, removing `name` removes that name and no other. */
  lemma RemoveFirstNames(cvs: seq<ColumnVindex>, name: string)
    requires DistinctNames(cvs)
    ensures DistinctNames(RemoveFirst(cvs, name))
    ensures forall n :: HasColumnVindex(RemoveFirst(cvs, name), n) <==> HasColumnVindex(cvs, n) && n != name
  {
    if HasColumnVindex(cvs, name) {
      var i := FirstIndexExists(cvs, name);
      RemoveFirstAt(cvs, name, i);
      SpliceNames(cvs, name, i);
    }
  }

  /** Removing the entry just appended gives back the list it was appended to. */
  lemma {:induction false} RemoveFirstAppended(cvs: seq<ColumnVindex>, cv: ColumnVindex)
    requires !HasColumnVindex(cvs, cv.name)
    ensures RemoveFirst(cvs + [cv], cv.name) == cvs
  {
    if cvs != [] {
      forall k | 0 <= k < |cvs[1..]|
        ensures cvs[1..][k].name != cv.name
      {
        assert cvs[1..][k] == cvs[k + 1];
      }
      assert cvs[0].name != cv.name;
      RemoveFirstAppended(cvs[1..], cv);
      assert (cvs + [cv])[1..] == cvs[1..] + [cv];
    }
  }

  // ---------------------------------------------------------------------
  // Invariants every action keeps

  /**
   A schema in which every column vindex names an existing vindex, no table
   lists a vindex twice, and a keyspace with vindexes is marked sharded.
   */
  ghost predicate WellFormed(ks: Keyspace)
  {
    && (forall t, i | t in ks.tables && 0 <= i < |ks.tables[t].columnVindexes| ::
          ks.tables[t].columnVindexes[i].name in ks.vindexes)
    && (forall t | t in ks.tables :: DistinctNames(ks.tables[t].columnVindexes))
    && (|ks.vindexes| != 0 ==> ks.sharded)
  }

  lemma EmptyKeyspaceWellFormed()
    ensures WellFormed(EmptyKeyspace)
  {
  }

  /** Appending an entry with a fresh name keeps the names distinct. */
  lemma AppendDistinct(cvs: seq<ColumnVindex>, cv: ColumnVindex)
    requires DistinctNames(cvs) && !HasColumnVindex(cvs, cv.name)
    ensures DistinctNames(cvs + [cv])
  {
  }

  /** Replacing one table by a well-formed record over a larger vindex map keeps the schema well formed. */
  lemma AssignTablePreservesWellFormed(ks: Keyspace, ks': Keyspace, name: string, t: Table)
    requires WellFormed(ks)
    requires ks'.tables == ks.tables[name := t]
    requires ks.vindexes.Keys <= ks'.vindexes.Keys
    requires |ks'.vindexes| != 0 ==> ks'.sharded
    requires forall i | 0 <= i < |t.columnVindexes| :: t.columnVindexes[i].name in ks'.vindexes
    requires DistinctNames(t.columnVindexes)
    ensures WellFormed(ks')
  {
  }

  /** What a successful column-vindex addition does to the vindex map and the sharded flag. */
  lemma AddColumnVindexVindexes(ks: Keyspace, tableName: string, spec: VindexSpec, columns: seq<string>)
    requires ApplyAddColumnVindex(ks, tableName, spec, columns).Ok?
    ensures var ks' := ApplyAddColumnVindex(ks, tableName, spec, columns).value;
            && spec.name in ks'.vindexes
            && ks.vindexes.Keys <= ks'.vindexes.Keys
            && (|ks.vindexes| == 0 ==> ks'.sharded)
            && (|ks.vindexes| != 0 ==> ks'.sharded == ks.sharded)
  {
  }

  lemma AddColumnVindexPreservesWellFormed(ks: Keyspace, tableName: string, spec: VindexSpec, columns: seq<string>)
    requires WellFormed(ks)
    requires ApplyAddColumnVindex(ks, tableName, spec, columns).Ok?
    ensures WellFormed(ApplyAddColumnVindex(ks, tableName, spec, columns).value)
  {
    var ks' := ApplyAddColumnVindex(ks, tableName, spec, columns).value;
    var base := AttachBase(ks.tables, tableName);
    var cv := ColumnVindex(spec.name, columns);
    var extended := base.columnVindexes + [cv];
    assert ks'.tables == ks.tables[tableName := base.(columnVindexes := extended)];
    AddColumnVindexVindexes(ks, tableName, spec, columns);
    assert forall i | 0 <= i < |base.columnVindexes| :: base.columnVindexes[i].name in ks.vindexes;
    forall i | 0 <= i < |extended|
      ensures extended[i].name in ks'.vindexes
    {
      if i < |base.columnVindexes| {
        assert extended[i] == base.columnVindexes[i];
      }
    }
    AppendDistinct(base.columnVindexes, cv);
    AssignTablePreservesWellFormed(ks, ks', tableName, base.(columnVindexes := extended));
  }

  lemma DropColumnVindexPreservesWellFormed(ks: Keyspace, tableName: string, name: string)
    requires WellFormed(ks)
    requires Apply(ks, DropColumnVindex(tableName, name)).Ok?
    ensures WellFormed(Apply(ks, DropColumnVindex(tableName, name)).value)
  {
    var ks' := Apply(ks, DropColumnVindex(tableName, name)).value;
    var cvs := ks.tables[tableName].columnVindexes;
    RemoveFirstNames(cvs, name);
    forall t, i | t in ks'.tables && 0 <= i < |ks'.tables[t].columnVindexes|
      ensures ks'.tables[t].columnVindexes[i].name in ks'.vindexes
    {
      if t == tableName {
        assert ks'.tables[t].columnVindexes[i] in cvs;
      }
    }
  }

  lemma DropVindexPreservesWellFormed(ks: Keyspace, name: string)
    requires WellFormed(ks)
    requires Apply(ks, DropVindex(name)).Ok?
    ensures WellFormed(Apply(ks, DropVindex(name)).value)
  {
    var ks' := Apply(ks, DropVindex(name)).value;
    forall t, i | t in ks'.tables && 0 <= i < |ks'.tables[t].columnVindexes|
      ensures ks'.tables[t].columnVindexes[i].name in ks'.vindexes
    {
      assert !HasColumnVindex(ks.tables[t].columnVindexes, name);
    }
  }

  /** A change that keeps the vindexes and the flag, and gives each table either its old column vindexes or none, keeps well-formedness. */
  lemma TableChangePreservesWellFormed(ks: Keyspace, ks': Keyspace)
    requires WellFormed(ks)
    requires ks'.sharded == ks.sharded && ks'.vindexes == ks.vindexes
    requires forall t | t in ks'.tables ::
               ks'.tables[t].columnVindexes == [] || (t in ks.tables && ks'.tables[t].columnVindexes == ks.tables[t].columnVindexes)
    ensures WellFormed(ks')
  {
  }

  lemma CreateVindexPreservesWellFormed(ks: Keyspace, spec: VindexSpec)
    requires WellFormed(ks)
    requires Apply(ks, CreateVindex(spec)).Ok?
    ensures WellFormed(Apply(ks, CreateVindex(spec)).value)
  {
  }

  /** Every successful action leaves a well-formed schema well-formed. */
  lemma {:induction false} ApplyPreservesWellFormed(ks: Keyspace, a: Action)
    requires WellFormed(ks)
    ensures Apply(ks, a).Ok? ==> WellFormed(Apply(ks, a).value)
  {
    if Apply(ks, a).Ok? {
      match a
      case AddColumnVindex(tableName, spec, columns) => AddColumnVindexPreservesWellFormed(ks, tableName, spec, columns);
      case DropColumnVindex(tableName, name) => DropColumnVindexPreservesWellFormed(ks, tableName, name);
      case DropVindex(name) => DropVindexPreservesWellFormed(ks, name);
      case CreateVindex(spec) => CreateVindexPreservesWellFormed(ks, spec);
      case _ => TableChangePreservesWellFormed(ks, Apply(ks, a).value);
    }
  }

  /** A run of statements, each applied to the schema the previous one produced; the first error ends it. */
  function ApplyAll(ks: Keyspace, actions: seq<Action>): Result<Keyspace>
    decreases |actions|
  {
    if actions == [] then Ok(ks)
    else
      match Apply(ks, actions[0])
      case Err(e) => Err(e)
      case Ok(next) => ApplyAll(next, actions[1..])
  }

  /** Across any run of statements, well-formedness is kept and the sharded flag is never cleared. */
  lemma {:induction false} ApplyAllPreserves(ks: Keyspace, actions: seq<Action>)
    requires WellFormed(ks)
    ensures ApplyAll(ks, actions).Ok? ==> WellFormed(ApplyAll(ks, actions).value)
    ensures ApplyAll(ks, actions).Ok? && ks.sharded ==> ApplyAll(ks, actions).value.sharded
    decreases |actions|
  {
    if actions != [] {
      ApplyPreservesWellFormed(ks, actions[0]);
      if Apply(ks, actions[0]).Ok? {
        ApplyAllPreserves(Apply(ks, actions[0]).value, actions[1..]);
      }
    }
  }

  /**
   A keyspace without a stored VSchema starts from the empty one, so every
   schema a run of statements builds from nothing is well formed.
   */
  lemma ReachableFromEmptyWellFormed(actions: seq<Action>)
    ensures ApplyAll(EmptyKeyspace, actions).Ok? ==> WellFormed(ApplyAll(EmptyKeyspace, actions).value)
  {
    EmptyKeyspaceWellFormed();
    ApplyAllPreserves(EmptyKeyspace, actions);
  }

  // ---------------------------------------------------------------------
  // Actions that undo each other

  /** Dropping the vindex just created restores the schema, except that the sharded flag stays set. */
  lemma CreateThenDropVindex(ks: Keyspace, spec: VindexSpec)
    requires WellFormed(ks)
    requires Apply(ks, CreateVindex(spec)).Ok?
    ensures Apply(Apply(ks, CreateVindex(spec)).value, DropVindex(spec.name))
            == Ok(ks.(sharded := ks.sharded || |ks.vindexes| == 0))
  {
    var ks' := Apply(ks, CreateVindex(spec)).value;
    forall t | t in ks'.tables
      ensures !HasColumnVindex(ks'.tables[t].columnVindexes, spec.name)
    {
      assert forall i | 0 <= i < |ks.tables[t].columnVindexes| :: ks.tables[t].columnVindexes[i].name in ks.vindexes;
    }
    assert ks'.vindexes - {spec.name} == ks.vindexes;
  }

  lemma AddThenDropTable(ks: Keyspace, name: string)
    requires Apply(ks, AddTable(name)).Ok?
    ensures Apply(Apply(ks, AddTable(name)).value, DropTable(name)) == Ok(ks)
  {
    assert (ks.tables[name := EmptyTable] - {name}) == ks.tables;
  }

  lemma AddThenDropSequence(ks: Keyspace, name: string)
    requires Apply(ks, AddSequence(name)).Ok?
    ensures Apply(Apply(ks, AddSequence(name)).value, DropSequence(name)) == Ok(ks)
  {
    assert (ks.tables[name := SequenceTable] - {name}) == ks.tables;
  }

  lemma AddThenDropAutoIncrement(ks: Keyspace, name: string, autoInc: AutoIncrement)
    requires Apply(ks, AddAutoIncrement(name, autoInc)).Ok?
    ensures Apply(Apply(ks, AddAutoIncrement(name, autoInc)).value, DropAutoIncrement(name)) == Ok(ks)
  {
    var t := ks.tables[name];
    var ks' := Apply(ks, AddAutoIncrement(name, autoInc)).value;
    assert ks'.tables == ks.tables[name := t.(autoIncrement := Some(autoInc))];
    assert ks'.tables[name].(autoIncrement := None) == t;
    assert ks'.tables[name := t] == ks.tables;
  }

  /**
   Dropping the column vindex just added to a named table restores the
   schema, provided the vindex already existed and the table was absent or
   had column vindexes of its own (a table left with none is deleted).
   */
  lemma AddThenDropColumnVindex(ks: Keyspace, tableName: string, spec: VindexSpec, columns: seq<string>)
    requires Apply(ks, AddColumnVindex(tableName, spec, columns)).Ok?
    requires spec.name in ks.vindexes
    requires tableName != ""
    requires tableName in ks.tables ==> ks.tables[tableName].columnVindexes != []
    ensures Apply(Apply(ks, AddColumnVindex(tableName, spec, columns)).value, DropColumnVindex(tableName, spec.name)) == Ok(ks)
  {
    var ks' := Apply(ks, AddColumnVindex(tableName, spec, columns)).value;
    var base := AttachBase(ks.tables, tableName);
    var cv := ColumnVindex(spec.name, columns);
    assert ks'.tables[tableName].columnVindexes == base.columnVindexes + [cv];
    assert HasColumnVindex(base.columnVindexes + [cv], spec.name) by {
      assert (base.columnVindexes + [cv])[|base.columnVindexes|].name == spec.name;
    }
    RemoveFirstAppended(base.columnVindexes, cv);
    if tableName in ks.tables {
      assert base == ks.tables[tableName];
      assert ks'.tables == ks.tables[tableName := base.(columnVindexes := base.columnVindexes + [cv])];
      assert ks'.tables[tableName := base] == ks.tables;
    } else {
      assert ks'.tables - {tableName} == ks.tables;
    }
  }

  /** Dropping a table's last column vindex deletes the whole table record, its auto-increment and type included. */
  lemma DropLastColumnVindexDropsTable(ks: Keyspace, tableName: string, name: string)
    requires tableName != "" && tableName in ks.tables
    requires |ks.tables[tableName].columnVindexes| == 1
    requires ks.tables[tableName].columnVindexes[0].name == name
    ensures Apply(ks, DropColumnVindex(tableName, name)).Ok?
    ensures tableName !in Apply(ks, DropColumnVindex(tableName, name)).value.tables
  {
  }

  // ---------------------------------------------------------------------
  // A worked sequence of statements

  /**
   Create a vindex in an empty keyspace, attach it to a new table, fail to
   drop it while it is used, detach it (which deletes the table), then drop
   it: the keyspace ends with no vindex and no table, still marked sharded.
   */
  lemma VindexLifecycle()
    ensures var hash := VindexSpec("hash_vdx", "hash", "", None);
            var noType := VindexSpec("hash_vdx", "", "", None);
            var s1 := Apply(EmptyKeyspace, CreateVindex(hash));
            && s1 == Ok(Keyspace(true, map[], map["hash_vdx" := Vindex("hash", None, "")]))
            && Apply(s1.value, CreateVindex(hash)) == Err(VindexAlreadyExists)
            && var s3 := Apply(s1.value, AddColumnVindex("t1", noType, ["id"]));
               && s3 == Ok(s1.value.(tables := map["t1" := Table("", [ColumnVindex("hash_vdx", ["id"])], None)]))
               && Apply(s3.value, DropVindex("hash_vdx")) == Err(VindexInUse)
               && var s5 := Apply(s3.value, DropColumnVindex("t1", "hash_vdx"));
                  && s5 == Ok(s1.value)
                  && Apply(s5.value, DropVindex("hash_vdx")) == Ok(Keyspace(true, map[], map[]))
  {
    var hash := VindexSpec("hash_vdx", "hash", "", None);
    var noType := VindexSpec("hash_vdx", "", "", None);
    var s1 := Keyspace(true, map[], map["hash_vdx" := Vindex("hash", None, "")]);
    assert Apply(EmptyKeyspace, CreateVindex(hash)) == Ok(s1);
    var cvs := [ColumnVindex("hash_vdx", ["id"])];
    var s3 := s1.(tables := map["t1" := Table("", cvs, None)]);
    assert [] + cvs == cvs;
    assert !HasColumnVindex([], "hash_vdx");
    assert EnsureVindex(s1, noType) == Ok(s1);
    assert AttachBase(s1.tables, "t1") == EmptyTable;
    assert Apply(s1, AddColumnVindex("t1", noType, ["id"])) == Ok(s3);
    assert s3.tables["t1"].columnVindexes[0].name == "hash_vdx";
    assert InUse(s3.tables, "hash_vdx");
    assert RemoveFirst(cvs, "hash_vdx") == [];
    assert s3.tables - {"t1"} == map[];
    assert Apply(s3, DropColumnVindex("t1", "hash_vdx")) == Ok(s1);
    assert s1.vindexes - {"hash_vdx"} == map[];
  }
}
