/**
 * The per-kind schema descriptor of a player table: its columns in order,
 * each with a storage kind, and the columns of its UNIQUE natural key. Text
 * columns are declared `COLLATE NOCASE`, which folds ASCII letters only.
 */
module Schemas {

  /** A value stored in a column; `Null` is SQL NULL (Python `None`). */
  datatype Value = Null | Text(s: string) | Int(n: int) | Float(x: real)

  datatype Kind =
    | NoCaseText       // VARCHAR COLLATE NOCASE
    | Integer          // INTEGER, never NULL in practice
    | Real             // FLOAT
    | NullableInteger  // INTEGER that may hold NULL

  datatype Column = Column(name: string, kind: Kind)

  /** Field name to value: one row, or the keyword arguments of a store call. */
  type Fields = map<string, Value>

  datatype Schema = Schema(columns: seq<Column>, unique: seq<string>) {

    /** Distinct column names, none called `id` (the surrogate key), and a key made of columns. */
    predicate WellFormed() {
      && (forall i, j :: 0 <= i < j < |columns| ==> columns[i].name != columns[j].name)
      && (forall i :: 0 <= i < |columns| ==> columns[i].name != "id")
      && (forall u :: u in unique ==> u in Names())
    }

    function Names(): set<string> {
      set c | c in columns :: c.name
    }

    /** The kind a column compares by; the surrogate `id` is an integer. */
    function KindOf(name: string): Kind {
      if name == "id" then Integer else KindIn(columns, name)
    }
  }

  function KindIn(columns: seq<Column>, name: string): Kind {
    if columns == [] then Integer
    else if columns[0].name == name then columns[0].kind
    else KindIn(columns[1..], name)
  }

  lemma KindInFound(columns: seq<Column>, k: nat)
    requires k < |columns|
    requires forall i, j :: 0 <= i < j < |columns| ==> columns[i].name != columns[j].name
    ensures KindIn(columns, columns[k].name) == columns[k].kind
  {
    if k > 0 {
      assert columns[0].name != columns[k].name;
      KindInFound(columns[1..], k - 1);
    }
  }

  // ----- SQLite's NOCASE collation -----

  function FoldChar(c: char): char {
    if 'A' <= c <= 'Z' then (c as int + 32) as char else c
  }

  /** ASCII lower-casing, the comparison key of `COLLATE NOCASE`; other characters are kept. */
  function Fold(s: string): (r: string)
    ensures |r| == |s|
    ensures forall i :: 0 <= i < |s| ==> r[i] == FoldChar(s[i])
  {
    seq(|s|, i requires 0 <= i < |s| => FoldChar(s[i]))
  }

  function UpperChar(c: char): char {
    if 'a' <= c <= 'z' then (c as int - 32) as char else c
  }

  /** ASCII upper-casing. */
  function Upper(s: string): string {
    seq(|s|, i requires 0 <= i < |s| => UpperChar(s[i]))
  }

  /** NOCASE treats a name and its ASCII upper-case spelling as the same key. */
  lemma FoldIgnoresCase(s: string)
    ensures Fold(Upper(s)) == Fold(s)
  {
    forall i | 0 <= i < |s| ensures Fold(Upper(s))[i] == Fold(s)[i] {
      var c := s[i];
      if 'a' <= c <= 'z' {
        assert UpperChar(c) as int == c as int - 32;
      }
    }
  }

  /** Folding is idempotent, and characters outside A-Z (accented letters included) are never folded. */
  lemma FoldStable(s: string)
    ensures Fold(Fold(s)) == Fold(s)
    ensures forall i :: 0 <= i < |s| && !('A' <= s[i] <= 'Z') ==> Fold(s)[i] == s[i]
  {
  }

  /**
   * `column = value` as SQLite evaluates it for a column of this kind: NULL
   * equals nothing, NOCASE text compares folded, everything else exactly.
   */
  predicate Collate(kind: Kind, a: Value, b: Value) {
    if a.Null? || b.Null? then false
    else if kind == NoCaseText && a.Text? && b.Text? then Fold(a.s) == Fold(b.s)
    else a == b
  }

  lemma CollateSymmetric(kind: Kind, a: Value, b: Value)
    ensures Collate(kind, a, b) == Collate(kind, b, a)
  {
  }

  predicate Fits(kind: Kind, v: Value) {
    match kind
    case NoCaseText => v.Text?
    case Integer => v.Int?
    case Real => v.Float?
    case NullableInteger => v.Int? || v.Null?
  }

  /** A value given for a column has that column's kind. */
  predicate ValuesFit(schema: Schema, fields: Fields) {
    forall c :: c in schema.columns && c.name in fields ==> Fits(c.kind, fields[c.name])
  }

  /** A stored row: exactly the schema's columns, each holding a value of its kind. */
  predicate WellTyped(schema: Schema, fields: Fields) {
    fields.Keys == schema.Names() && ValuesFit(schema, fields)
  }

  /**
   * Two rows collide on the UNIQUE constraint: every key column compares
   * equal. A table without a UNIQUE constraint never collides.
   */
  predicate Conflicts(schema: Schema, a: Fields, b: Fields) {
    && schema.unique != []
    && forall u :: u in schema.unique ==> u in a && u in b && Collate(schema.KindOf(u), a[u], b[u])
  }

  lemma ConflictsSymmetric(schema: Schema, a: Fields, b: Fields)
    ensures Conflicts(schema, a, b) == Conflicts(schema, b, a)
  {
  }

  /** The natural-key part of a row, as keyword arguments for a lookup. */
  function KeyOf(schema: Schema, fields: Fields): (key: Fields)
    ensures key.Keys <= fields.Keys
    ensures forall u :: u in key ==> key[u] == fields[u]
  {
    map u | u in schema.unique && u in fields :: fields[u]
  }

  // ----- the kinds of player in this system -----

  /** Raider.io characters: keyed by region, realm and name, all case-insensitive. */
  const RaiderSchema := Schema(
    [ Column("region", NoCaseText), Column("realm", NoCaseText),
      Column("name", NoCaseText), Column("rating", Real) ],
    ["region", "realm", "name"])

  /** Rainbow Six Siege profiles: keyed by the Ubisoft uid. */
  const SiegeSchema := Schema(
    [ Column("uid", NoCaseText), Column("name", NoCaseText), Column("platform", NoCaseText),
      Column("rank_name", NoCaseText), Column("rank_points", Integer),
      Column("season_kills", Integer), Column("season_deaths", Integer) ],
    ["uid"])

  /** The older raider.io table: a nullable Discord id in front, and no UNIQUE constraint at all. */
  const LegacyRaiderSchema := Schema(
    [ Column("discord_id", NullableInteger), Column("region", NoCaseText),
      Column("realm", NoCaseText), Column("name", NoCaseText), Column("rating", Real) ],
    [])

  lemma RaiderSchemaWellFormed()
    ensures RaiderSchema.WellFormed()
  {
    assert RaiderSchema.columns[0].name == "region";
    assert RaiderSchema.columns[1].name == "realm";
    assert RaiderSchema.columns[2].name == "name";
  }

  lemma SiegeSchemaWellFormed()
    ensures SiegeSchema.WellFormed()
  {
    assert SiegeSchema.columns[0].name == "uid";
  }

  lemma SchemasWellFormed()
    ensures RaiderSchema.WellFormed() && SiegeSchema.WellFormed() && LegacyRaiderSchema.WellFormed()
  {
    RaiderSchemaWellFormed();
    SiegeSchemaWellFormed();
  }
}
