/** The value classes of the account layer: the `Permission` enum with its
    string decoder, users, backend permissions and the combined full user. */
module AccountClasses {
  import opened Wrappers

  /** Kotlin's `Iterable.find`: the first element satisfying `p`, or nothing. */
  function Find<T>(s: seq<T>, p: T -> bool): (r: Option<T>)
    ensures r.Some? ==>
      exists i :: 0 <= i < |s| && s[i] == r.value && p(s[i]) &&
        forall j :: 0 <= j < i ==> !p(s[j])
    ensures r.None? <==> forall i :: 0 <= i < |s| ==> !p(s[i])
  {
    if |s| == 0 then None
    else if p(s[0]) then Some(s[0])
    else
      var r := Find(s[1..], p);
      assert forall i :: 1 <= i < |s| ==> s[i] == s[1..][i - 1];
      r
  }

  /** The four enum constants. Their Dafny names spell the Kotlin
      identifiers on purpose: `Name()` is what the decoder compares with. */
  datatype Permission = NONE | READ | WRITE | READ_WRITE {
    /** Kotlin's `Enum.name`: the identifier of the constant. */
    function Name(): string {
      match this
      case NONE => "NONE"
      case READ => "READ"
      case WRITE => "WRITE"
      case READ_WRITE => "READ_WRITE"
    }

    /** The argument given to the enum constructor. It is a plain
        constructor parameter, not a property, so no code can read it back;
        it is kept here only to state what the decoder does with it. */
    function DeclaredLabel(): string {
      match this
      case NONE => "none"
      case READ => "read"
      case WRITE => "write"
      case READ_WRITE => "read-write"
    }
  }

  /** `Permission.values()`, in declaration order. */
  function Values(): (ps: seq<Permission>)
    ensures |ps| == 4
    ensures forall i, j :: 0 <= i < j < |ps| ==> ps[i] != ps[j]
  {
    [NONE, READ, WRITE, READ_WRITE]
  }

  lemma ValuesComplete(p: Permission)
    ensures p in Values()
  {
  }

  /** True when no constant has the identifier `value`. */
  predicate NamesNoConstant(value: string) {
    forall q: Permission :: q.Name() != value
  }

  /** `Permission.fromString`: the first constant whose identifier equals
      `value` exactly, or `NONE` when there is none. */
  function FromString(value: string): (r: Permission)
    ensures r.Name() == value || (r == NONE && NamesNoConstant(value))
  {
    Find(Values(), (p: Permission) => p.Name() == value).GetOr(NONE)
  }

  lemma NamesDistinct(p: Permission, q: Permission)
    ensures p.Name() == q.Name() <==> p == q
  {
  }

  /** The decoder returns `p` exactly when `value` is the identifier of `p`,
      or when `p` is `NONE` and `value` is no identifier at all. */
  lemma FromStringCharacterised(value: string, p: Permission)
    ensures FromString(value) == p <==>
      (value == p.Name() || (p == NONE && NamesNoConstant(value)))
  {
  }

  /** Round trip: decoding the identifier of a constant gives the constant. */
  lemma FromStringName(p: Permission)
    ensures FromString(p.Name()) == p
  {
  }

  /** The match is case-sensitive and ignores the declared labels: every
      string that is not exactly an identifier decodes to `NONE`, and the
      lower-case labels are such strings. */
  lemma FromStringLabelsAreNone(p: Permission)
    ensures forall s :: NamesNoConstant(s) ==> FromString(s) == NONE
    ensures NamesNoConstant(p.DeclaredLabel())
    ensures FromString(p.DeclaredLabel()) == NONE
  {
  }

  /** `data class User`. */
  datatype User = User(userId: int, email: string, password: string)

  /** `data class UserCreation`: the request to create a user. */
  datatype UserCreation = UserCreation(email: string, password: string)

  /** The nine permission properties of `BackendPermissions`, in declaration order. */
  datatype PermissionField =
    | UserPermission | ServerSettings | Template | CategoryContent | CategoryProducts
    | ProductContent | ProductPrice | ProductWarehouse | TextPages

  function Fields(): (fs: seq<PermissionField>)
    ensures |fs| == 9
  {
    [UserPermission, ServerSettings, Template, CategoryContent, CategoryProducts,
     ProductContent, ProductPrice, ProductWarehouse, TextPages]
  }

  /** `data class BackendPermissions`; `apiKey` is the nullable `String?`. */
  datatype BackendPermissions = BackendPermissions(
    userId: int,
    userPermission: Permission,
    serverSettings: Permission,
    template: Permission,
    categoryContent: Permission,
    categoryProducts: Permission,
    productContent: Permission,
    productPrice: Permission,
    productWarehouse: Permission,
    textPages: Permission,
    apiKey: Option<string>)
  {
    /** The getter of one permission property. */
    function Get(f: PermissionField): Permission {
      match f
      case UserPermission => userPermission
      case ServerSettings => serverSettings
      case Template => template
      case CategoryContent => categoryContent
      case CategoryProducts => categoryProducts
      case ProductContent => productContent
      case ProductPrice => productPrice
      case ProductWarehouse => productWarehouse
      case TextPages => textPages
    }

    /** The setter of one permission property (each is a `var`). There is
        no setter for `userId`, which is a `val`; `apiKey`, also a `var`,
        has its own setter `WithApiKey`. */
    function With(f: PermissionField, p: Permission): (r: BackendPermissions)
      ensures r.userId == userId && r.apiKey == apiKey
      ensures r.Get(f) == p
      ensures forall g :: g != f ==> r.Get(g) == Get(g)
    {
      match f
      case UserPermission => this.(userPermission := p)
      case ServerSettings => this.(serverSettings := p)
      case Template => this.(template := p)
      case CategoryContent => this.(categoryContent := p)
      case CategoryProducts => this.(categoryProducts := p)
      case ProductContent => this.(productContent := p)
      case ProductPrice => this.(productPrice := p)
      case ProductWarehouse => this.(productWarehouse := p)
      case TextPages => this.(textPages := p)
    }

    /** The setter of the nullable `apiKey` property. */
    function WithApiKey(k: Option<string>): (r: BackendPermissions)
      ensures r.apiKey == k && r.userId == userId
      ensures forall f :: r.Get(f) == Get(f)
    {
      this.(apiKey := k)
    }
  }

  /** Two permission records agree when their user, their key and every
      permission property agree. */
  lemma BackendPermissionsExtensional(a: BackendPermissions, b: BackendPermissions)
    requires a.userId == b.userId && a.apiKey == b.apiKey
    requires forall f: PermissionField :: a.Get(f) == b.Get(f)
    ensures a == b
  {
    assert a.Get(UserPermission) == b.Get(UserPermission);
    assert a.Get(ServerSettings) == b.Get(ServerSettings);
    assert a.Get(Template) == b.Get(Template);
    assert a.Get(CategoryContent) == b.Get(CategoryContent);
    assert a.Get(CategoryProducts) == b.Get(CategoryProducts);
    assert a.Get(ProductContent) == b.Get(ProductContent);
    assert a.Get(ProductPrice) == b.Get(ProductPrice);
    assert a.Get(ProductWarehouse) == b.Get(ProductWarehouse);
    assert a.Get(TextPages) == b.Get(TextPages);
  }

  /** `data class FullUser`: a user together with its backend permissions. */
  datatype FullUser = FullUser(user: User, backendPermissions: BackendPermissions)

  /** The failure a violated `require` raises. */
  datatype Failure = IllegalArgument

  /** The `FullUser` constructor with its `init { require(...) }`: it
      succeeds exactly when both halves name the same user. */
  function MakeFullUser(user: User, backendPermissions: BackendPermissions): (r: Result<FullUser, Failure>)
    ensures r.Ok? <==> user.userId == backendPermissions.userId
    ensures r.Ok? ==> r.value.user == user && r.value.backendPermissions == backendPermissions
    ensures r.Err? ==> r.error == IllegalArgument
  {
    if user.userId == backendPermissions.userId then Ok(FullUser(user, backendPermissions))
    else Err(IllegalArgument)
  }
}
