/**
 * The database core: the naming-convention table the schema's constraint
 * names are generated from, and the connection holder with its
 * connected/disconnected state.
 */
module DatabaseCore {
  import opened Wrappers
  import opened DatabaseUtils

  /** The values a naming template may refer to. */
  datatype Placeholder = TableName | Column0Name | Column0Label | ConstraintName

  /** One piece of a `%(name)s`-style template: literal text or a placeholder. */
  datatype Piece = Text(text: string) | Field(placeholder: Placeholder)

  /** The values substituted into a template for one constraint. */
  datatype TemplateInputs = TemplateInputs(
    tableName: string,
    column0Name: string,
    column0Label: string,
    constraintName: string)

  /** The naming convention, keyed by constraint kind. */
  const NamingConvention: map<string, seq<Piece>> := map[
    "ix" := [Field(Column0Label), Text("_ix")],
    "uq" := [Field(TableName), Text("_"), Field(Column0Name), Text("_uq")],
    "ck" := [Field(TableName), Text("_"), Field(ConstraintName), Text("_ck")],
    "fk" := [Field(TableName), Text("_"), Field(Column0Name), Text("_fk")],
    "pk" := [Field(TableName), Text("_pk")]
  ]

  function Substitute(p: Placeholder, inputs: TemplateInputs): string
  {
    match p
    case TableName => inputs.tableName
    case Column0Name => inputs.column0Name
    case Column0Label => inputs.column0Label
    case ConstraintName => inputs.constraintName
  }

  /** The text a single piece contributes. */
  function PieceText(piece: Piece, inputs: TemplateInputs): string
  {
    match piece
    case Text(t) => t
    case Field(p) => Substitute(p, inputs)
  }

  /** The template with every placeholder replaced by its value. */
  function Expand(template: seq<Piece>, inputs: TemplateInputs): string
  {
    if template == [] then "" else PieceText(template[0], inputs) + Expand(template[1..], inputs)
  }

  /** Expanding a concatenation expands each part in turn. */
  lemma {:induction false} ExpandAppend(a: seq<Piece>, b: seq<Piece>, inputs: TemplateInputs)
    ensures Expand(a + b, inputs) == Expand(a, inputs) + Expand(b, inputs)
  {
    if a == [] {
      assert a + b == b;
    } else {
      assert (a + b)[0] == a[0];
      assert (a + b)[1..] == a[1..] + b;
      ExpandAppend(a[1..], b, inputs);
      calc {
        Expand(a + b, inputs);
        PieceText(a[0], inputs) + Expand(a[1..] + b, inputs);
        PieceText(a[0], inputs) + (Expand(a[1..], inputs) + Expand(b, inputs));
        (PieceText(a[0], inputs) + Expand(a[1..], inputs)) + Expand(b, inputs);
      }
    }
  }

  /** A template of two pieces expands to their two texts. */
  lemma ExpandPair(p: Piece, q: Piece, inputs: TemplateInputs)
    ensures Expand([p, q], inputs) == PieceText(p, inputs) + PieceText(q, inputs)
  {
    assert [p, q][1..] == [q];
    assert [q][1..] == [];
    assert Expand([q], inputs) == PieceText(q, inputs) + "";
  }

  /** Every generated name ends with an underscore and the kind it was generated for. */
  lemma {:induction false} ConventionEndsWithKind(kind: string, inputs: TemplateInputs)
    requires kind in NamingConvention
    ensures
      var name := Expand(NamingConvention[kind], inputs);
      |name| >= |kind| + 1 && name[|name| - |kind| - 1..] == "_" + kind
  {
    var t := NamingConvention[kind];
    var last := t[|t| - 1];
    assert t == t[..|t| - 1] + [last];
    ExpandAppend(t[..|t| - 1], [last], inputs);
  }

  /** The table covers every kind the canonicaliser accepts, and also `pk`, which it does not. */
  lemma ConventionCoversKinds()
    ensures forall k: Kind :: KindText(k) in NamingConvention
    ensures "pk" in NamingConvention && forall k: Kind :: KindText(k) != "pk"
  {
  }

  /** The `uq` template agrees with the canonical `uq` name when column 0 is the column. */
  lemma {:induction false} UniqueTemplateAgrees(inputs: TemplateInputs, column: Column)
    requires inputs.tableName == column.tableName && inputs.column0Name == column.key
    ensures Expand(NamingConvention["uq"], inputs) == ToConstraintName(column, Uq)
  {
    var t := NamingConvention["uq"];
    assert t == [Field(TableName)] + [Text("_")] + [Field(Column0Name)] + [Text("_uq")];
    ExpandAppend([Field(TableName)] + [Text("_")] + [Field(Column0Name)], [Text("_uq")], inputs);
    ExpandAppend([Field(TableName)] + [Text("_")], [Field(Column0Name)], inputs);
    ExpandAppend([Field(TableName)], [Text("_")], inputs);
  }

  /** The `fk` template agrees with the canonical `fk` name when column 0 is the column. */
  lemma {:induction false} ForeignKeyTemplateAgrees(inputs: TemplateInputs, column: Column)
    requires inputs.tableName == column.tableName && inputs.column0Name == column.key
    ensures Expand(NamingConvention["fk"], inputs) == ToConstraintName(column, Fk)
  {
    var t := NamingConvention["fk"];
    assert t == [Field(TableName)] + [Text("_")] + [Field(Column0Name)] + [Text("_fk")];
    ExpandAppend([Field(TableName)] + [Text("_")] + [Field(Column0Name)], [Text("_fk")], inputs);
    ExpandAppend([Field(TableName)] + [Text("_")], [Field(Column0Name)], inputs);
    ExpandAppend([Field(TableName)], [Text("_")], inputs);
  }

  /** A primary-key name is the table name and `_pk`, whatever the columns. */
  lemma PrimaryKeyTemplateIgnoresColumns(inputs: TemplateInputs, other: TemplateInputs)
    requires inputs.tableName == other.tableName
    ensures Expand(NamingConvention["pk"], inputs) == inputs.tableName + "_pk"
    ensures Expand(NamingConvention["pk"], inputs) == Expand(NamingConvention["pk"], other)
  {
    ExpandPair(Field(TableName), Text("_pk"), inputs);
    ExpandPair(Field(TableName), Text("_pk"), other);
  }

  /** Dropping the same suffix from two equal strings leaves equal strings, and conversely. */
  lemma SameSuffixCancels(a: string, b: string, suffix: string)
    ensures a + suffix == b + suffix <==> a == b
  {
    if a + suffix == b + suffix {
      assert |a| == |b|;
      assert a == (a + suffix)[..|a|];
    }
  }

  /**
   * The `ix` template is built from the column label, so it agrees with the
   * canonical `ix` name exactly when the label is the column key.
   */
  lemma IndexTemplateAgreesIff(inputs: TemplateInputs, column: Column)
    ensures Expand(NamingConvention["ix"], inputs) == ToConstraintName(column, Ix)
        <==> inputs.column0Label == column.key
  {
    var t := NamingConvention["ix"];
    ExpandPair(Field(Column0Label), Text("_ix"), inputs);
    assert ToConstraintName(column, Ix) == column.key + "_ix";
    SameSuffixCancels(inputs.column0Label, column.key, "_ix");
  }

  /**
   * The `ck` template is built from the constraint's own name, so for the
   * column's table it agrees with the canonical `ck` name exactly when that
   * name is the column key.
   */
  lemma CheckTemplateAgreesIff(inputs: TemplateInputs, column: Column)
    requires inputs.tableName == column.tableName
    ensures Expand(NamingConvention["ck"], inputs) == ToConstraintName(column, Ck)
        <==> inputs.constraintName == column.key
  {
    var t := NamingConvention["ck"];
    assert t == [Field(TableName), Text("_")] + [Field(ConstraintName), Text("_ck")];
    ExpandAppend([Field(TableName), Text("_")], [Field(ConstraintName), Text("_ck")], inputs);
    ExpandPair(Field(TableName), Text("_"), inputs);
    ExpandPair(Field(ConstraintName), Text("_ck"), inputs);
    var prefix := inputs.tableName + "_";
    assert Expand(t, inputs) == prefix + (inputs.constraintName + "_ck");
    assert ToConstraintName(column, Ck) == prefix + (column.key + "_ck");
    if Expand(t, inputs) == ToConstraintName(column, Ck) {
      assert inputs.constraintName + "_ck" == (prefix + (inputs.constraintName + "_ck"))[|prefix|..];
      assert column.key + "_ck" == (prefix + (column.key + "_ck"))[|prefix|..];
      SameSuffixCancels(inputs.constraintName, column.key, "_ck");
    }
  }

  /** The engine, identified by the URL it was created for; its pool is not modelled. */
  datatype Engine = Engine(url: string)

  /** A session factory bound to an engine. */
  datatype SessionFactory = SessionFactory(engine: Engine)

  /** A connection checked out of an engine. */
  datatype Connection = Connection(engine: Engine)

  /** A session opened by a session factory. */
  datatype Session = Session(factory: SessionFactory)

  const NotConnected: string := "Database not connected"

  /** The process-wide database holder. */
  class DB {
    var engine: Option<Engine>
    var sessionFactory: Option<SessionFactory>
    /** The engines disposed so far, oldest first. */
    ghost var disposed: seq<Engine>

    /** Either both parts are set, the factory bound to the engine, or neither is. */
    ghost predicate Valid()
      reads this
    {
      && (engine.None? <==> sessionFactory.None?)
      && (sessionFactory.Some? ==> sessionFactory.value.engine == engine.value)
    }

    constructor ()
      ensures engine == None && sessionFactory == None && disposed == []
      ensures Valid()
    {
      engine := None;
      sessionFactory := None;
      disposed := [];
    }

    /** Disposes the engine and clears both parts when an engine is set; otherwise does nothing. */
    method Disconnect()
      modifies this
      ensures engine == None
      ensures old(engine).Some? ==> sessionFactory == None && disposed == old(disposed) + [old(engine).value]
      ensures old(engine).None? ==> sessionFactory == old(sessionFactory) && disposed == old(disposed)
      ensures old(Valid()) ==> Valid()
    {
      if engine.Some? {
        disposed := disposed + [engine.value];
        engine := None;
        sessionFactory := None;
      }
    }

    /**
     * Disconnects first when either part is set, creates an engine and a
     * factory for `url`, and stores them only once the probe connection
     * succeeds. `probeSucceeds` is the outcome of that probe; when it is
     * false the probe's error propagates and `ok` is false.
     */
    method Connect(url: string, probeSucceeds: bool) returns (ok: bool)
      modifies this
      ensures ok == probeSucceeds
      ensures ok ==> engine == Some(Engine(url)) && sessionFactory == Some(SessionFactory(Engine(url)))
      ensures ok ==> Valid()
      ensures !ok ==> engine == None
      ensures !ok ==> sessionFactory == if old(engine).Some? then None else old(sessionFactory)
      ensures !ok && old(Valid()) ==> sessionFactory == None
      ensures disposed == old(disposed) + if old(engine).Some? then [old(engine).value] else []
    {
      if engine.Some? || sessionFactory.Some? {
        Disconnect();
      }
      var newEngine := Engine(url);
      var newFactory := SessionFactory(newEngine);
      if !probeSucceeds {
        return false;
      }
      engine := Some(newEngine);
      sessionFactory := Some(newFactory);
      ok := true;
    }

    /** A connection from the engine, or "Database not connected" when there is none. */
    method GetConnection() returns (r: Result<Connection, string>)
      ensures r.Failure? <==> engine.None?
      ensures r.Failure? ==> r.error == NotConnected
      ensures r.Success? ==> r.value.engine == engine.value
    {
      if engine.None? {
        return Failure(NotConnected);
      }
      r := Success(Connection(engine.value));
    }

    /** A session from the factory, or "Database not connected" when there is none. */
    method GetSession() returns (r: Result<Session, string>)
      ensures r.Failure? <==> sessionFactory.None?
      ensures r.Failure? ==> r.error == NotConnected
      ensures r.Success? ==> r.value.factory == sessionFactory.value
    {
      if sessionFactory.None? {
        return Failure(NotConnected);
      }
      r := Success(Session(sessionFactory.value));
    }
  }

  /**
   * The connection lifecycle as the application drives it: connect, use,
   * connect again (which disposes the first engine), disconnect twice.
   */
  method LifecycleExample(first: string, second: string) returns (uses: seq<Result<Connection, string>>)
    ensures |uses| == 3
    ensures uses[0] == Success(Connection(Engine(first)))
    ensures uses[1] == Success(Connection(Engine(second)))
    ensures uses[2] == Failure(NotConnected)
  {
    var db := new DB();
    var ok := db.Connect(first, true);
    var c0 := db.GetConnection();
    ok := db.Connect(second, true);
    assert db.disposed == [Engine(first)];
    var c1 := db.GetConnection();
    db.Disconnect();
    db.Disconnect();
    var c2 := db.GetConnection();
    uses := [c0, c1, c2];
  }
}
