/**
 * A stored row as the mappers see it: a lookup from column name to a possibly
 * null value, plus the typed accessors and the decoding rules the mappers
 * apply to single columns.
 */
module Rows {
  import opened Wrappers
  import opened Foreign

  type Uuid = nat

  /** A column name, qualified by its table (`connection.id`). */
  type Column = string

  /** A non-null value held in a column. */
  datatype Value =
    | UuidValue(uuid: Uuid)
    | TextValue(text: string)
    | BoolValue(flag: bool)
    | IntValue(number: int)
    | JsonbValue(data: string)
    | TimestampValue(timestamp: LocalDateTime)
    | DateValue(date: LocalDate)

  /** A row: `None` is SQL NULL; a column absent from the map was not selected. */
  type Row = map<Column, Option<Value>>

  /** Why a mapping failed: the exception the source would throw. */
  datatype Error =
    | MissingColumn(column: Column)
    | WrongType(column: Column)
    | NullValue(column: Column)
    | UnknownToken(column: Column, token: string)
    | MalformedJson(shape: Shape)
    | MalformedVersion(text: string)
    | MigrationFailed(shape: Shape)

  predicate IsNull(row: Row, col: Column) {
    col in row && row[col].None?
  }

  /** The text held in a column, when it holds text. */
  function TextAt(row: Row, col: Column): Option<string> {
    if col in row && row[col].Some? && row[col].value.TextValue? then Some(row[col].value.text) else None
  }

  /** The JSON text held in a column, when it holds a JSON document. */
  function JsonAt(row: Row, col: Column): Option<string> {
    if col in row && row[col].Some? && row[col].value.JsonbValue? then Some(row[col].value.data) else None
  }

  /** `record.get(field)`: fails when the row does not carry the column. */
  function Get(row: Row, col: Column): Result<Option<Value>, Error> {
    if col in row then Success(row[col]) else Failure(MissingColumn(col))
  }

  function GetUuid(row: Row, col: Column): Result<Option<Uuid>, Error> {
    var v :- Get(row, col);
    match v
    case None => Success(None)
    case Some(UuidValue(u)) => Success(Some(u))
    case Some(_) => Failure(WrongType(col))
  }

  function GetText(row: Row, col: Column): Result<Option<string>, Error> {
    var v :- Get(row, col);
    match v
    case None => Success(None)
    case Some(TextValue(t)) => Success(Some(t))
    case Some(_) => Failure(WrongType(col))
  }

  function GetBool(row: Row, col: Column): Result<Option<bool>, Error> {
    var v :- Get(row, col);
    match v
    case None => Success(None)
    case Some(BoolValue(b)) => Success(Some(b))
    case Some(_) => Failure(WrongType(col))
  }

  function GetInt(row: Row, col: Column): Result<Option<int>, Error> {
    var v :- Get(row, col);
    match v
    case None => Success(None)
    case Some(IntValue(n)) => Success(Some(n))
    case Some(_) => Failure(WrongType(col))
  }

  function GetJsonb(row: Row, col: Column): Result<Option<string>, Error> {
    var v :- Get(row, col);
    match v
    case None => Success(None)
    case Some(JsonbValue(d)) => Success(Some(d))
    case Some(_) => Failure(WrongType(col))
  }

  function GetTimestamp(row: Row, col: Column): Result<Option<LocalDateTime>, Error> {
    var v :- Get(row, col);
    match v
    case None => Success(None)
    case Some(TimestampValue(t)) => Success(Some(t))
    case Some(_) => Failure(WrongType(col))
  }

  function GetDate(row: Row, col: Column): Result<Option<LocalDate>, Error> {
    var v :- Get(row, col);
    match v
    case None => Success(None)
    case Some(DateValue(d)) => Success(Some(d))
    case Some(_) => Failure(WrongType(col))
  }

  /** A value dereferenced without a null check: a null column is a NullPointerException. */
  function NonNull<T>(col: Column, cell: Result<Option<T>, Error>): (r: Result<T, Error>)
    ensures cell == Success(None) ==> r == Failure(NullValue(col))
    ensures r.Success? <==> cell.Success? && cell.value.Some?
    ensures r.Success? ==> r.value == cell.value.value
  {
    var v :- cell;
    if v.None? then Failure(NullValue(col)) else Success(v.value)
  }

  /**
   * A mandatory enum column, `Enums.toEnum(token).orElseThrow()`: it succeeds
   * exactly when the column holds a known token, a null token fails and an
   * unknown token fails; no default is ever substituted.
   */
  function RequiredEnum<T>(row: Row, col: Column, tokens: map<string, T>): (r: Result<T, Error>)
    ensures r.Success? <==> TextAt(row, col).Some? && TextAt(row, col).value in tokens
    ensures r.Success? ==> r.value == tokens[TextAt(row, col).value]
    ensures IsNull(row, col) ==> r == Failure(NullValue(col))
    ensures TextAt(row, col).Some? && TextAt(row, col).value !in tokens ==>
              r == Failure(UnknownToken(col, TextAt(row, col).value))
  {
    var token :- NonNull(col, GetText(row, col));
    if token in tokens then Success(tokens[token]) else Failure(UnknownToken(col, token))
  }

  /**
   * A nullable enum column, `get(c) == null ? null : Enums.toEnum(..).orElseThrow()`:
   * null maps to null, a known token to its value, an unknown token fails.
   */
  function NullableEnum<T>(row: Row, col: Column, tokens: map<string, T>): (r: Result<Option<T>, Error>)
    ensures IsNull(row, col) ==> r == Success(None)
    ensures r.Success? <==> IsNull(row, col) || (TextAt(row, col).Some? && TextAt(row, col).value in tokens)
    ensures r.Success? && r.value.Some? ==>
              TextAt(row, col).Some? && r.value.value == tokens[TextAt(row, col).value]
    ensures TextAt(row, col).Some? && TextAt(row, col).value in tokens ==>
              r == Success(Some(tokens[TextAt(row, col).value]))
    ensures TextAt(row, col).Some? && TextAt(row, col).value !in tokens ==>
              r == Failure(UnknownToken(col, TextAt(row, col).value))
  {
    var cell :- Get(row, col);
    if cell.None? then Success(None)
    else
      var token :- NonNull(col, GetText(row, col));
      if token in tokens then Success(Some(tokens[token])) else Failure(UnknownToken(col, token))
  }

  /** `Jsons.deserialize(text, shape)` as a mapping step. */
  function Deserialize(lib: Library, text: string, shape: Shape): (r: Result<Node, Error>)
    ensures r.Success? <==> lib.deserialize(text, shape).Some?
    ensures r.Success? ==> r.value == lib.deserialize(text, shape).value
    ensures r.Failure? ==> r.error == MalformedJson(shape)
  {
    match lib.deserialize(text, shape)
    case None => Failure(MalformedJson(shape))
    case Some(n) => Success(n)
  }

  /**
   * A mandatory JSON column, `Jsons.deserialize(get(c).data(), shape)`: a null
   * column fails (the `.data()` dereference), a malformed document fails.
   */
  function RequiredJson(lib: Library, row: Row, col: Column, shape: Shape): (r: Result<Node, Error>)
    ensures r.Success? <==> JsonAt(row, col).Some? && lib.deserialize(JsonAt(row, col).value, shape).Some?
    ensures r.Success? ==> r.value == lib.deserialize(JsonAt(row, col).value, shape).value
    ensures IsNull(row, col) ==> r == Failure(NullValue(col))
  {
    var text :- NonNull(col, GetJsonb(row, col));
    Deserialize(lib, text, shape)
  }

  /** A nullable JSON column: null maps to null, otherwise the document must decode. */
  function NullableJson(lib: Library, row: Row, col: Column, shape: Shape): (r: Result<Option<Node>, Error>)
    ensures IsNull(row, col) ==> r == Success(None)
    ensures r.Success? <==>
              IsNull(row, col) || (JsonAt(row, col).Some? && lib.deserialize(JsonAt(row, col).value, shape).Some?)
    ensures r.Success? && r.value.Some? ==>
              JsonAt(row, col).Some? && r.value.value == lib.deserialize(JsonAt(row, col).value, shape).value
    ensures JsonAt(row, col).Some? && lib.deserialize(JsonAt(row, col).value, shape).Some? ==>
              r == Success(Some(lib.deserialize(JsonAt(row, col).value, shape).value))
  {
    var cell :- Get(row, col);
    if cell.None? then Success(None)
    else
      var text :- NonNull(col, GetJsonb(row, col));
      var node :- Deserialize(lib, text, shape);
      Success(Some(node))
  }
}
