/**
 * The storage-layer error translator: canonical constraint names, reading the
 * driver's diagnostics, and a translator that turns a violated, registered
 * constraint into the domain error registered for it.
 */
module DatabaseUtils {
  import opened Wrappers

  /** The constraint kinds the canonicaliser accepts (there is no `pk`). */
  datatype Kind = Ix | Uq | Ck | Fk

  /** The suffix a kind contributes to a constraint name. */
  function KindText(k: Kind): string
  {
    match k
    case Ix => "ix"
    case Uq => "uq"
    case Ck => "ck"
    case Fk => "fk"
  }

  /** A mapped column attribute: the table name of its class and its key. */
  datatype Column = Column(tableName: string, key: string)

  /**
   * The canonical constraint name of a column and a kind: `uq`, `ck` and `fk`
   * names are table, column and kind joined by underscores; an `ix` name has
   * no table part.
   */
  function ToConstraintName(column: Column, c: Kind): (name: string)
    ensures |name| >= 3 && name[|name| - 3] == '_' && name[|name| - 2..] == KindText(c)
    ensures c == Ix ==> name[..|name| - 3] == column.key
    ensures c != Ix ==>
      && |name| == |column.tableName| + 1 + |column.key| + 3
      && name[..|column.tableName|] == column.tableName
      && name[|column.tableName|] == '_'
      && name[|column.tableName| + 1..|name| - 3] == column.key
  {
    match c
    case Uq | Ck | Fk => column.tableName + "_" + column.key + "_" + KindText(c)
    case Ix => column.key + "_" + KindText(c)
  }

  /** Two equal canonical names were produced for the same kind. */
  lemma ConstraintNameDeterminesKind(c1: Column, k1: Kind, c2: Column, k2: Kind)
    requires ToConstraintName(c1, k1) == ToConstraintName(c2, k2)
    ensures k1 == k2
  {
  }

  /** Within one table and one kind, the canonical name determines the column key. */
  lemma ConstraintNameDeterminesKey(c1: Column, c2: Column, k: Kind)
    requires k == Ix || c1.tableName == c2.tableName
    requires ToConstraintName(c1, k) == ToConstraintName(c2, k)
    ensures c1.key == c2.key
  {
  }

  /** An `ix` name does not depend on the table. */
  lemma IndexNameIgnoresTable(t1: string, t2: string, key: string)
    ensures ToConstraintName(Column(t1, key), Ix) == ToConstraintName(Column(t2, key), Ix)
    ensures ToConstraintName(Column(t1, key), Ix) == key + "_ix"
  {
  }

  /**
   * Across tables the canonical names are not unique: a table and a column
   * can split the same underscored text in two ways.
   */
  lemma CrossTableNamesCollide()
    ensures ToConstraintName(Column("team", "players_id"), Fk)
         == ToConstraintName(Column("team_players", "id"), Fk)
         == "team_players_id_fk"
  {
  }

  /** The driver's diagnostics; every field may be missing. */
  datatype Diagnostics = Diagnostics(
    constraintName: Option<string>,
    messageDetail: Option<string>,
    messagePrimary: Option<string>)

  /** The driver's own error; `diag == None` when its diagnostics cannot be read. */
  datatype DriverError = DriverError(diag: Option<Diagnostics>)

  /** A domain error class, named. */
  datatype ErrorType = ErrorType(name: string)

  /** Raised errors: the storage layer's integrity error, a domain error, or anything else. */
  datatype Exception =
    | IntegrityError(orig: DriverError)
    | DomainError(errorType: ErrorType, detail: Option<string>, cause: Exception)
    | OtherError(name: string)

  /** Python truthiness of an optional string: present and non-empty. */
  predicate Truthy(s: Option<string>)
  {
    s.Some? && s.value != ""
  }

  /** The violated constraint's name, or None when the diagnostics cannot be read. */
  function ExtractConstraintName(e: Exception): (name: Option<string>)
    requires e.IntegrityError?
    ensures e.orig.diag.None? ==> name == None
    ensures e.orig.diag.Some? ==> name == e.orig.diag.value.constraintName
  {
    match e.orig.diag
    case None => None
    case Some(d) => d.constraintName
  }

  /**
   * The human-readable detail: the detail message when it is non-empty,
   * otherwise the primary message; None when the diagnostics cannot be read.
   */
  function GetExcDetail(e: Exception): (detail: Option<string>)
    requires e.IntegrityError?
    ensures e.orig.diag.None? ==> detail == None
    ensures e.orig.diag.Some? && Truthy(e.orig.diag.value.messageDetail) ==>
      detail == e.orig.diag.value.messageDetail
    ensures e.orig.diag.Some? && !Truthy(e.orig.diag.value.messageDetail) ==>
      detail == e.orig.diag.value.messagePrimary
  {
    match e.orig.diag
    case None => None
    case Some(d) => if Truthy(d.messageDetail) then d.messageDetail else d.messagePrimary
  }

  /** A non-empty detail always comes from one of the two diagnostic messages. */
  lemma DetailComesFromDiagnostics(e: Exception)
    requires e.IntegrityError?
    requires Truthy(GetExcDetail(e))
    ensures e.orig.diag.Some?
    ensures GetExcDetail(e) == e.orig.diag.value.messageDetail
         || GetExcDetail(e) == e.orig.diag.value.messagePrimary
  {
  }

  /** A registration key: a literal constraint name or a (column, kind) pair. */
  datatype ConstraintKey = Literal(name: string) | Tuple(column: Column, kind: Kind)

  /** The name a key is registered under: literal names verbatim, pairs canonicalised. */
  function Canonical(key: ConstraintKey): string
  {
    match key
    case Literal(name) => name
    case Tuple(column, kind) => ToConstraintName(column, kind)
  }

  /**
   * The registry built from the entries in iteration order; a later entry
   * replaces an earlier one with the same name.
   */
  function Registry(entries: seq<(ConstraintKey, ErrorType)>): map<string, ErrorType>
  {
    if |entries| == 0 then map[]
    else
      var last := entries[|entries| - 1];
      Registry(entries[..|entries| - 1])[Canonical(last.0) := last.1]
  }

  /**
   * The registered names are exactly the names of the entries: every entry's
   * name is registered, and every registered name is some entry's name.
   */
  lemma {:induction false} RegistryKeys(entries: seq<(ConstraintKey, ErrorType)>)
    ensures forall i :: 0 <= i < |entries| ==> Canonical(entries[i].0) in Registry(entries)
    ensures forall name :: name in Registry(entries) ==>
      exists i :: 0 <= i < |entries| && Canonical(entries[i].0) == name
  {
    if |entries| > 0 {
      var init := entries[..|entries| - 1];
      RegistryKeys(init);
      forall i | 0 <= i < |init| ensures init[i] == entries[i] {
      }
    }
  }

  /** An entry whose name no later entry reuses is the one registered under that name. */
  lemma {:induction false} RegistryLastWins(entries: seq<(ConstraintKey, ErrorType)>, i: nat)
    requires i < |entries|
    requires forall j :: i < j < |entries| ==> Canonical(entries[j].0) != Canonical(entries[i].0)
    ensures Canonical(entries[i].0) in Registry(entries)
    ensures Registry(entries)[Canonical(entries[i].0)] == entries[i].1
  {
    if i < |entries| - 1 {
      var init := entries[..|entries| - 1];
      assert init[i] == entries[i];
      forall j | i < j < |init| ensures Canonical(init[j].0) != Canonical(init[i].0) {
        assert init[j] == entries[j];
      }
      RegistryLastWins(init, i);
    }
  }

  /** How the wrapped operation ended. */
  datatype OpResult = Completed | Raised(exc: Exception)

  /** How the translator's scope closed. */
  datatype Outcome = Clean | Translated(raised: Exception) | Propagated(raised: Exception)

  /** Maps registered constraint names to the domain errors raised for them. */
  class DatabaseErrorTranslator {
    const constraintErrors: map<string, ErrorType>

    /** Registers every entry, in iteration order, under its canonical name. */
    constructor (entries: seq<(ConstraintKey, ErrorType)>)
      ensures constraintErrors == Registry(entries)
    {
      var errors: map<string, ErrorType> := map[];
      for i := 0 to |entries|
        invariant errors == Registry(entries[..i])
      {
        var (key, error) := entries[i];
        var name := if key.Literal? then key.name else ToConstraintName(key.column, key.kind);
        assert entries[..i + 1][..i] == entries[..i];
        errors := errors[name := error];
      }
      assert entries[..|entries|] == entries;
      constraintErrors := errors;
    }

    /** The integrity error's name is non-empty and registered. */
    predicate Registered(e: Exception)
      requires e.IntegrityError?
    {
      var name := ExtractConstraintName(e);
      Truthy(name) && name.value in constraintErrors
    }

    /**
     * Closes the scope around the wrapped operation: a normal completion stays
     * clean, a registered integrity error is replaced by its domain error
     * (with the driver's detail and the original as cause), and every other
     * error propagates unchanged.
     */
    function Call(r: OpResult): (o: Outcome)
      ensures o.Clean? <==> r.Completed?
      ensures o.Translated? <==> r.Raised? && r.exc.IntegrityError? && Registered(r.exc)
      ensures o.Translated? ==>
        var name := ExtractConstraintName(r.exc).value;
        o.raised == DomainError(constraintErrors[name], GetExcDetail(r.exc), r.exc)
      ensures o.Propagated? ==> o.raised == r.exc
    {
      match r
      case Completed => Clean
      case Raised(e) =>
        if e.IntegrityError? then
          var constraint := ExtractConstraintName(e);
          if Truthy(constraint) && constraint.value in constraintErrors then
            Translated(DomainError(constraintErrors[constraint.value], GetExcDetail(e), e))
          else
            Propagated(e)
        else
          Propagated(e)
    }
  }

  /** An integrity error naming the empty string propagates even when "" is registered. */
  lemma EmptyNameNeverTranslated(t: DatabaseErrorTranslator, d: Diagnostics)
    requires d.constraintName == Some("")
    requires "" in t.constraintErrors
    ensures t.Call(Raised(IntegrityError(DriverError(Some(d))))) == Propagated(IntegrityError(DriverError(Some(d))))
  {
  }

  /**
   * A violation of a registered, non-empty constraint name (a literal name or
   * the canonical name of a (column, kind) pair) is translated into the error
   * of the last entry for that name.
   */
  lemma RegisteredKeyTranslates(
    entries: seq<(ConstraintKey, ErrorType)>, i: nat, t: DatabaseErrorTranslator, d: Diagnostics)
    requires t.constraintErrors == Registry(entries)
    requires i < |entries| && Canonical(entries[i].0) != ""
    requires forall j :: i < j < |entries| ==> Canonical(entries[j].0) != Canonical(entries[i].0)
    requires d.constraintName == Some(Canonical(entries[i].0))
    ensures
      var e := IntegrityError(DriverError(Some(d)));
      t.Call(Raised(e)) == Translated(DomainError(entries[i].1, GetExcDetail(e), e))
  {
    RegistryLastWins(entries, i);
  }

  /**
   * The usage documented on the translator: a literal name and a pair,
   * and what becomes of a clean run, a violation of each, an unregistered
   * violation and an unrelated error.
   */
  method UsageExample(detail: string) returns (outcomes: seq<Outcome>)
    ensures |outcomes| == 5
    ensures outcomes[0] == Clean
    ensures outcomes[1] == Translated(DomainError(ErrorType("TeamNotFound"), Some("violation"),
      IntegrityError(DriverError(Some(Diagnostics(Some("team_players_team_id_fk"), None, Some("violation")))))))
    ensures outcomes[2] == Translated(DomainError(ErrorType("PlayerNotFound"), if detail == "" then None else Some(detail),
      IntegrityError(DriverError(Some(Diagnostics(Some("team_players_player_id_fk"), Some(detail), None))))))
    ensures outcomes[3] == Propagated(IntegrityError(DriverError(Some(Diagnostics(Some("team_players_pk"), None, None)))))
    ensures outcomes[4] == Propagated(OtherError("OperationalError"))
  {
    var entries := [
      (Literal("team_players_team_id_fk"), ErrorType("TeamNotFound")),
      (Tuple(Column("team_players", "player_id"), Fk), ErrorType("PlayerNotFound"))
    ];
    var translator := new DatabaseErrorTranslator(entries);
    var team := IntegrityError(DriverError(Some(Diagnostics(Some("team_players_team_id_fk"), None, Some("violation")))));
    var player := IntegrityError(DriverError(Some(Diagnostics(Some("team_players_player_id_fk"), Some(detail), None))));
    var other := IntegrityError(DriverError(Some(Diagnostics(Some("team_players_pk"), None, None))));
    assert ToConstraintName(Column("team_players", "player_id"), Fk) == "team_players_player_id_fk";
    RegisteredKeyTranslates(entries, 0, translator, team.orig.diag.value);
    RegisteredKeyTranslates(entries, 1, translator, player.orig.diag.value);
    outcomes := [
      translator.Call(Completed),
      translator.Call(Raised(team)),
      translator.Call(Raised(player)),
      translator.Call(Raised(other)),
      translator.Call(Raised(OtherError("OperationalError")))
    ];
  }
}
