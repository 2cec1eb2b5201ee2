/** The positional parameter tuples the account verticle sends with its SQL
    statements, and the decoders that turn result rows back into records.
    `hash()` and `Permission.convertToString()` are defined elsewhere; they
    are parameters here (`hash`, `convert`). */
module AccountRows {
  import opened Wrappers
  import opened AccountClasses

  /** One statement parameter or one column of a result row. */
  datatype SqlValue = SqlInt(i: int) | SqlString(s: string) | SqlNull

  /** A result row, by column name. */
  type Row = map<string, SqlValue>

  /** The columns of the `users` and `backend_permissions` tables. */
  datatype Column =
    | UserIdColumn | EmailColumn | PasswordColumn
    | PermissionColumn(field: PermissionField) | ApiKeyColumn

  function ColumnName(c: Column): string {
    match c
    case UserIdColumn => "user_id"
    case EmailColumn => "email"
    case PasswordColumn => "password"
    case ApiKeyColumn => "API_KEY"
    case PermissionColumn(f) =>
      match f
      case UserPermission => "user_permissions"
      case ServerSettings => "server_settings"
      case Template => "template"
      case CategoryContent => "category_content"
      case CategoryProducts => "category_products"
      case ProductContent => "product_content"
      case ProductPrice => "product_price"
      case ProductWarehouse => "product_warehouse"
      case TextPages => "text_pages"
  }

  /** A nullable string as a statement parameter. */
  function ApiKeyValue(k: Option<string>): SqlValue {
    match k
    case Some(s) => SqlString(s)
    case None => SqlNull
  }

  function RotateLeft<T>(s: seq<T>): seq<T>
    requires |s| > 0
  {
    s[1..] + [s[0]]
  }

  // ---------------------------------------------------------------- users

  /** The placeholders of `UPDATE users SET email = ?, password = ? WHERE user_id = ?`. */
  const UpdateUserColumns: seq<Column> := [EmailColumn, PasswordColumn, UserIdColumn]

  /** The placeholders of `INSERT INTO users (email, password) VALUES (?,?)`. */
  const InsertUserColumns: seq<Column> := [EmailColumn, PasswordColumn]

  /** What the `users` table holds in column `c` for user `u`: the password
      only ever reaches the table hashed. */
  function UserColumnValue(u: User, c: Column, hash: string -> string): SqlValue
    requires c.UserIdColumn? || c.EmailColumn? || c.PasswordColumn?
  {
    match c
    case UserIdColumn => SqlInt(u.userId)
    case EmailColumn => SqlString(u.email)
    case PasswordColumn => SqlString(hash(u.password))
  }

  /** `User.makeUserTuple`. */
  function MakeUserTuple(u: User, hash: string -> string): (t: seq<SqlValue>)
    ensures |t| == |UpdateUserColumns|
    ensures forall i :: 0 <= i < |t| ==> t[i] == UserColumnValue(u, UpdateUserColumns[i], hash)
  {
    [SqlString(u.email), SqlString(hash(u.password)), SqlInt(u.userId)]
  }

  /** `UserCreation.makeUserCreationTuple`. The INSERT has no `user_id`
      placeholder, so every position holds the same value whatever id the
      user is later given. */
  function MakeUserCreationTuple(c: UserCreation, hash: string -> string): (t: seq<SqlValue>)
    ensures |t| == |InsertUserColumns|
    ensures forall userId: int, i :: 0 <= i < |t| ==>
      t[i] == UserColumnValue(User(userId, c.email, c.password), InsertUserColumns[i], hash)
  {
    [SqlString(c.email), SqlString(hash(c.password))]
  }

  /** The creation tuple is the update tuple of the same email and password
      without its trailing user id. */
  lemma UserCreationTupleIsPrefix(c: UserCreation, userId: int, hash: string -> string)
    ensures MakeUserCreationTuple(c, hash) == MakeUserTuple(User(userId, c.email, c.password), hash)[..2]
    ensures MakeUserTuple(User(userId, c.email, c.password), hash)
            == MakeUserCreationTuple(c, hash) + [SqlInt(userId)]
  {
  }

  /** The row `SELECT * FROM users` yields for a stored user. */
  function StoredUserRow(u: User, hash: string -> string): Row {
    map[ColumnName(UserIdColumn) := UserColumnValue(u, UserIdColumn, hash),
        ColumnName(EmailColumn) := UserColumnValue(u, EmailColumn, hash),
        ColumnName(PasswordColumn) := UserColumnValue(u, PasswordColumn, hash)]
  }

  predicate HasInt(row: Row, name: string) {
    name in row && row[name].SqlInt?
  }

  predicate HasString(row: Row, name: string) {
    name in row && row[name].SqlString?
  }

  /** The columns `makeUserObject` reads are present and not null. */
  predicate IsUserRow(row: Row) {
    && HasInt(row, ColumnName(UserIdColumn))
    && HasString(row, ColumnName(EmailColumn))
    && HasString(row, ColumnName(PasswordColumn))
  }

  /** `Row.makeUserObject`. */
  function MakeUserObject(row: Row): (u: User)
    requires IsUserRow(row)
    ensures SqlInt(u.userId) == row[ColumnName(UserIdColumn)]
    ensures SqlString(u.email) == row[ColumnName(EmailColumn)]
    ensures SqlString(u.password) == row[ColumnName(PasswordColumn)]
  {
    User(row["user_id"].i, row["email"].s, row["password"].s)
  }

  /** Reading a stored user back gives the user with its password hashed:
      the plain password is never read back. */
  lemma StoredUserReadsBackHashed(u: User, hash: string -> string)
    ensures IsUserRow(StoredUserRow(u, hash))
    ensures MakeUserObject(StoredUserRow(u, hash)) == u.(password := hash(u.password))
  {
  }

  // --------------------------------------------------- backend permissions

  predicate IsPermissionsColumn(c: Column) {
    c.UserIdColumn? || c.PermissionColumn? || c.ApiKeyColumn?
  }

  /** What the `backend_permissions` table holds in column `c` for `bp`. */
  function PermissionsColumnValue(bp: BackendPermissions, c: Column, convert: Permission -> string): SqlValue
    requires IsPermissionsColumn(c)
  {
    match c
    case UserIdColumn => SqlInt(bp.userId)
    case PermissionColumn(f) => SqlString(convert(bp.Get(f)))
    case ApiKeyColumn => ApiKeyValue(bp.apiKey)
  }

  /** The placeholders of the `INSERT INTO backend_permissions` statement. */
  const InsertPermissionsColumns: seq<Column> :=
    [UserIdColumn,
     PermissionColumn(UserPermission), PermissionColumn(ServerSettings), PermissionColumn(Template),
     PermissionColumn(CategoryContent), PermissionColumn(CategoryProducts), PermissionColumn(ProductContent),
     PermissionColumn(ProductPrice), PermissionColumn(ProductWarehouse), PermissionColumn(TextPages),
     ApiKeyColumn]

  /** The placeholders of the `UPDATE backend_permissions SET ... WHERE user_id = ?` statement. */
  const UpdatePermissionsColumns: seq<Column> :=
    [PermissionColumn(UserPermission), PermissionColumn(ServerSettings), PermissionColumn(Template),
     PermissionColumn(CategoryContent), PermissionColumn(CategoryProducts), PermissionColumn(ProductContent),
     PermissionColumn(ProductPrice), PermissionColumn(ProductWarehouse), PermissionColumn(TextPages),
     ApiKeyColumn,
     UserIdColumn]

  /** `BackendPermissions.makeBackendPermissionsTuple(isPutRequest)`; which
      column each position binds is proved in `PermissionsTupleBindsColumns`. */
  function MakeBackendPermissionsTuple(bp: BackendPermissions, isPutRequest: bool, convert: Permission -> string)
    : (t: seq<SqlValue>)
    ensures |t| == 11 == |PermissionsColumns(isPutRequest)|
  {
    if isPutRequest then
      [SqlString(convert(bp.userPermission)),
       SqlString(convert(bp.serverSettings)),
       SqlString(convert(bp.template)),
       SqlString(convert(bp.categoryContent)),
       SqlString(convert(bp.categoryProducts)),
       SqlString(convert(bp.productContent)),
       SqlString(convert(bp.productPrice)),
       SqlString(convert(bp.productWarehouse)),
       SqlString(convert(bp.textPages)),
       ApiKeyValue(bp.apiKey),
       SqlInt(bp.userId)]
    else
      [SqlInt(bp.userId),
       SqlString(convert(bp.userPermission)),
       SqlString(convert(bp.serverSettings)),
       SqlString(convert(bp.template)),
       SqlString(convert(bp.categoryContent)),
       SqlString(convert(bp.categoryProducts)),
       SqlString(convert(bp.productContent)),
       SqlString(convert(bp.productPrice)),
       SqlString(convert(bp.productWarehouse)),
       SqlString(convert(bp.textPages)),
       ApiKeyValue(bp.apiKey)]
  }

  /** The placeholder list a tuple is sent with. */
  function PermissionsColumns(isPutRequest: bool): seq<Column> {
    if isPutRequest then UpdatePermissionsColumns else InsertPermissionsColumns
  }

  /** Each parameter is the value of the column whose placeholder stands at
      the same position in the statement the tuple is sent with, for the
      INSERT (create) and the UPDATE (put) layout alike. */
  lemma PermissionsTupleBindsColumns(bp: BackendPermissions, isPutRequest: bool, convert: Permission -> string)
    ensures var t := MakeBackendPermissionsTuple(bp, isPutRequest, convert);
      var columns := PermissionsColumns(isPutRequest);
      && |t| == |columns|
      && forall i :: 0 <= i < |t| ==>
           IsPermissionsColumn(columns[i]) && t[i] == PermissionsColumnValue(bp, columns[i], convert)
  {
  }

  /** The create layout: the user id, the nine converted permissions in
      declaration order, then the API key. */
  lemma CreateTupleLayout(bp: BackendPermissions, convert: Permission -> string)
    ensures var t := MakeBackendPermissionsTuple(bp, false, convert);
      && |t| == 11
      && t[0] == SqlInt(bp.userId)
      && (forall k :: 0 <= k < 9 ==> t[k + 1] == SqlString(convert(bp.Get(Fields()[k]))))
      && t[10] == ApiKeyValue(bp.apiKey)
  {
  }

  /** The update layout is the create layout rotated left by one, so the
      user id moves from first to last and nothing else changes; the
      statements' placeholder lists are rotated the same way. */
  lemma PutTupleIsRotation(bp: BackendPermissions, convert: Permission -> string)
    ensures MakeBackendPermissionsTuple(bp, true, convert)
            == RotateLeft(MakeBackendPermissionsTuple(bp, false, convert))
    ensures UpdatePermissionsColumns == RotateLeft(InsertPermissionsColumns)
    ensures multiset(UpdatePermissionsColumns) == multiset(InsertPermissionsColumns)
  {
    var c := InsertPermissionsColumns;
    assert c == [c[0]] + c[1..];
  }

  /** Every column `makeBackendPermissionsObject` reads is present; the
      permission columns are not null. */
  predicate IsPermissionsRow(row: Row) {
    && HasInt(row, ColumnName(UserIdColumn))
    && (forall f: PermissionField :: HasString(row, ColumnName(PermissionColumn(f))))
    && ColumnName(ApiKeyColumn) in row
    && !row[ColumnName(ApiKeyColumn)].SqlInt?
  }

  /** `Permission.fromString(getString(column of f))`. */
  function PermissionAt(row: Row, f: PermissionField): Permission
    requires HasString(row, ColumnName(PermissionColumn(f)))
  {
    FromString(row[ColumnName(PermissionColumn(f))].s)
  }

  /** `getString("API_KEY")`: null becomes `None`. */
  function ApiKeyAt(row: Row): (k: Option<string>)
    requires ColumnName(ApiKeyColumn) in row && !row[ColumnName(ApiKeyColumn)].SqlInt?
    ensures ApiKeyValue(k) == row[ColumnName(ApiKeyColumn)]
  {
    match row["API_KEY"]
    case SqlString(s) => Some(s)
    case SqlNull => None
  }

  /** `Row.makeBackendPermissionsObject`: each property is decoded from its
      own column. */
  function MakeBackendPermissionsObject(row: Row): (bp: BackendPermissions)
    requires IsPermissionsRow(row)
    ensures SqlInt(bp.userId) == row[ColumnName(UserIdColumn)]
    ensures ApiKeyValue(bp.apiKey) == row[ColumnName(ApiKeyColumn)]
  {
    BackendPermissions(
      row["user_id"].i,
      PermissionAt(row, UserPermission),
      PermissionAt(row, ServerSettings),
      PermissionAt(row, Template),
      PermissionAt(row, CategoryContent),
      PermissionAt(row, CategoryProducts),
      PermissionAt(row, ProductContent),
      PermissionAt(row, ProductPrice),
      PermissionAt(row, ProductWarehouse),
      PermissionAt(row, TextPages),
      ApiKeyAt(row))
  }

  /** Each permission property is decoded from its own column. */
  lemma DecodesOwnColumn(row: Row, f: PermissionField)
    requires IsPermissionsRow(row)
    ensures MakeBackendPermissionsObject(row).Get(f) == FromString(row[ColumnName(PermissionColumn(f))].s)
  {
  }

  /** The row `SELECT * FROM backend_permissions` yields for a stored record. */
  function StoredPermissionsRow(bp: BackendPermissions, convert: Permission -> string): Row {
    map[ColumnName(UserIdColumn) := PermissionsColumnValue(bp, UserIdColumn, convert),
        ColumnName(PermissionColumn(UserPermission)) := PermissionsColumnValue(bp, PermissionColumn(UserPermission), convert),
        ColumnName(PermissionColumn(ServerSettings)) := PermissionsColumnValue(bp, PermissionColumn(ServerSettings), convert),
        ColumnName(PermissionColumn(Template)) := PermissionsColumnValue(bp, PermissionColumn(Template), convert),
        ColumnName(PermissionColumn(CategoryContent)) := PermissionsColumnValue(bp, PermissionColumn(CategoryContent), convert),
        ColumnName(PermissionColumn(CategoryProducts)) := PermissionsColumnValue(bp, PermissionColumn(CategoryProducts), convert),
        ColumnName(PermissionColumn(ProductContent)) := PermissionsColumnValue(bp, PermissionColumn(ProductContent), convert),
        ColumnName(PermissionColumn(ProductPrice)) := PermissionsColumnValue(bp, PermissionColumn(ProductPrice), convert),
        ColumnName(PermissionColumn(ProductWarehouse)) := PermissionsColumnValue(bp, PermissionColumn(ProductWarehouse), convert),
        ColumnName(PermissionColumn(TextPages)) := PermissionsColumnValue(bp, PermissionColumn(TextPages), convert),
        ColumnName(ApiKeyColumn) := PermissionsColumnValue(bp, ApiKeyColumn, convert)]
  }

  /** The stored row holds, under each column's name, that column's value. */
  lemma StoredPermissionsColumn(bp: BackendPermissions, convert: Permission -> string, c: Column)
    requires IsPermissionsColumn(c)
    ensures ColumnName(c) in StoredPermissionsRow(bp, convert)
    ensures StoredPermissionsRow(bp, convert)[ColumnName(c)] == PermissionsColumnValue(bp, c, convert)
  {
  }

  lemma StoredPermissionsRowIsDecodable(bp: BackendPermissions, convert: Permission -> string)
    ensures IsPermissionsRow(StoredPermissionsRow(bp, convert))
  {
  }

  /** Round trip: when the stored permission strings are the identifiers
      `fromString` matches, a stored record reads back unchanged. */
  lemma StoredPermissionsRoundTrip(bp: BackendPermissions, convert: Permission -> string)
    requires forall p: Permission :: FromString(convert(p)) == p
    ensures IsPermissionsRow(StoredPermissionsRow(bp, convert))
    ensures MakeBackendPermissionsObject(StoredPermissionsRow(bp, convert)) == bp
  {
    var row := StoredPermissionsRow(bp, convert);
    StoredPermissionsRowIsDecodable(bp, convert);
    var r := MakeBackendPermissionsObject(row);
    StoredPermissionsColumn(bp, convert, UserIdColumn);
    StoredPermissionsColumn(bp, convert, ApiKeyColumn);
    assert r.apiKey == bp.apiKey by {
      assert ApiKeyValue(r.apiKey) == ApiKeyValue(bp.apiKey);
    }
    forall f: PermissionField ensures r.Get(f) == bp.Get(f) {
      StoredPermissionsColumn(bp, convert, PermissionColumn(f));
      DecodesOwnColumn(row, f);
    }
    BackendPermissionsExtensional(r, bp);
  }

  /** If the stored strings were the declared lower-case labels instead,
      every permission would read back as `NONE`. */
  lemma StoredLabelsReadBackAsNone(bp: BackendPermissions, f: PermissionField)
    ensures IsPermissionsRow(StoredPermissionsRow(bp, (p: Permission) => p.DeclaredLabel()))
    ensures MakeBackendPermissionsObject(StoredPermissionsRow(bp, (p: Permission) => p.DeclaredLabel())).Get(f) == NONE
  {
    var convert := (p: Permission) => p.DeclaredLabel();
    var row := StoredPermissionsRow(bp, convert);
    StoredPermissionsRowIsDecodable(bp, convert);
    StoredPermissionsColumn(bp, convert, PermissionColumn(f));
    DecodesOwnColumn(row, f);
    FromStringLabelsAreNone(bp.Get(f));
  }

  // ------------------------------------------------------------ full users

  /** `Row.makeFullUserObject`: both halves are decoded from the same row,
      so the `FullUser` id check always passes. */
  function MakeFullUserObject(row: Row): (r: Result<FullUser, Failure>)
    requires IsUserRow(row) && IsPermissionsRow(row)
    ensures r.Ok?
    ensures r.value.user == MakeUserObject(row)
    ensures r.value.backendPermissions == MakeBackendPermissionsObject(row)
  {
    MakeFullUser(MakeUserObject(row), MakeBackendPermissionsObject(row))
  }
}
