/** The backend context of context/AppwriteContext.tsx: the signed-in user,
    a loading flag around every auth call, and the document requests that
    carry the owner's id.

    The Appwrite SDK behind lib/appwrite.ts is not part of this model: each
    awaited SDK call is a parameter saying how it went. `getCurrentUser` never
    throws there (it answers `null` on error), so it is an `Option<User>`;
    the others either succeed or throw. Every auth method returns the SDK
    calls it issued, in order, and whether it rethrew. */
module AppwriteContext {
  import opened Common

  datatype User = User(id: string, name: string, email: string)

  datatype AuthCall =
    | CheckSessionCall
    | SignInCall(email: string, password: string)
    | CreateAccountCall(email: string, password: string, name: string)
    | GoogleSignInCall
    | GetCurrentUserCall
    | SignOutCall

  const TodoCollectionId := "YOUR_TODO_COLLECTION_ID"
  const OrderCollectionId := "YOUR_ORDER_COLLECTION_ID"

  /** A document as sent to the database: field name to value. */
  type Document = map<string, Value>

  datatype DocumentRequest =
    | CreateDocument(collection: string, data: Document)
    | GetDocuments(collection: string, queries: seq<string>)

  /** `user?.$id` */
  function OwnerId(user: Option<User>): (v: Value)
    ensures user.Some? <==> v.Str?
    ensures user.Some? ==> v == Str(user.value.id)
    ensures user.None? ==> v == Undefined
  {
    match user
    case Some(u) => Str(u.id)
    case None => Undefined
  }

  /** `{ ...data, userId: user?.$id }`: the caller's fields, with `userId`
      added or overwritten by the current owner. */
  function Stamp(data: Document, user: Option<User>): (r: Document)
    ensures r.Keys == data.Keys + {"userId"}
    ensures r["userId"] == OwnerId(user)
    ensures forall k :: k in data && k != "userId" ==> r[k] == data[k]
  {
    data["userId" := OwnerId(user)]
  }

  /** `${user?.$id}` inside a template literal: a missing user prints as "undefined". */
  function IdText(user: Option<User>): (s: string)
    ensures user.Some? ==> s == user.value.id
    ensures user.None? ==> s == "undefined"
  {
    match user
    case Some(u) => u.id
    case None => "undefined"
  }

  const FilterPrefix := "equal(\"userId\", \""
  const FilterSuffix := "\")"

  /** The one query string of `getTodos` and `getOrders`. */
  function UserFilter(user: Option<User>): (q: string)
    ensures |q| == |FilterPrefix| + |IdText(user)| + |FilterSuffix|
    ensures q[..|FilterPrefix|] == FilterPrefix
    ensures q[|FilterPrefix|..|q| - |FilterSuffix|] == IdText(user)
    ensures q[|q| - |FilterSuffix|..] == FilterSuffix
  {
    var q := FilterPrefix + IdText(user) + FilterSuffix;
    assert q[..|FilterPrefix|] == FilterPrefix;
    assert q[|FilterPrefix|..|q| - |FilterSuffix|] == IdText(user);
    q
  }

  /** Different owners get different filters: the filter determines the id. */
  lemma UserFilterInjective(a: Option<User>, b: Option<User>)
    requires UserFilter(a) == UserFilter(b)
    ensures IdText(a) == IdText(b)
  {
    var q := UserFilter(a);
    assert IdText(a) == q[|FilterPrefix|..|q| - |FilterSuffix|] == IdText(b);
  }

  /** Without a signed-in user the filter is the one of a user whose id is the
      text "undefined". */
  lemma SignedOutFilterCollides(name: string, email: string)
    ensures UserFilter(None) == UserFilter(Some(User("undefined", name, email)))
  {
  }

  /** `createTodo` */
  function CreateTodoRequest(data: Document, user: Option<User>): (r: DocumentRequest)
    ensures r.CreateDocument? && r.collection == TodoCollectionId
    ensures r.data == Stamp(data, user)
  {
    CreateDocument(TodoCollectionId, Stamp(data, user))
  }

  /** `createOrder` */
  function CreateOrderRequest(data: Document, user: Option<User>): (r: DocumentRequest)
    ensures r.CreateDocument? && r.collection == OrderCollectionId
    ensures r.data == Stamp(data, user)
  {
    CreateDocument(OrderCollectionId, Stamp(data, user))
  }

  /** `getTodos` */
  function GetTodosRequest(user: Option<User>): (r: DocumentRequest)
    ensures r.GetDocuments? && r.collection == TodoCollectionId
    ensures r.queries == [UserFilter(user)]
  {
    GetDocuments(TodoCollectionId, [UserFilter(user)])
  }

  /** `getOrders` */
  function GetOrdersRequest(user: Option<User>): (r: DocumentRequest)
    ensures r.GetDocuments? && r.collection == OrderCollectionId
    ensures r.queries == [UserFilter(user)]
  {
    GetDocuments(OrderCollectionId, [UserFilter(user)])
  }

  /** Whoever is signed in, a created todo is stamped with the very id its
      owner's `getTodos` filters on. */
  lemma CreatedTodoMatchesOwnFilter(data: Document, u: User)
    ensures CreateTodoRequest(data, Some(u)).data["userId"] == Str(u.id)
    ensures GetTodosRequest(Some(u)).queries[0][|FilterPrefix|..|UserFilter(Some(u))| - |FilterSuffix|] == u.id
  {
  }

  class AppwriteProvider {
    var user: Option<User>
    var isLoading: bool

    /** The initial state, before the mount effect's session check. */
    constructor ()
      ensures user == None && isLoading
    {
      user := None;
      isLoading := true;
    }

    /** `isAuthenticated`, i.e. `!!user`. */
    predicate IsAuthenticated()
      reads this
    {
      user.Some?
    }

    /** `checkUserSession`: a returned user is stored; no user, or a check
        that throws, leaves `user` as it was (a session is never cleared here). */
    method CheckUserSession(found: Outcome<Option<User>>) returns (calls: seq<AuthCall>)
      modifies this
      ensures calls == [CheckSessionCall]
      ensures found.Succeeded? && found.value.Some? ==> user == found.value
      ensures !(found.Succeeded? && found.value.Some?) ==> user == old(user)
      ensures !isLoading
    {
      isLoading := true;
      calls := [CheckSessionCall];
      if found.Succeeded? && found.value.Some? {
        user := found.value;
      }
      isLoading := false;
    }

    /** The shared tail of the three sign-in flavours: on success of the
        first call, fetch the current user and store it (which may be none). */
    method SignInThenFetchUser(first: AuthCall, ok: bool, current: Option<User>) returns (calls: seq<AuthCall>, thrown: bool)
      modifies this
      ensures thrown <==> !ok
      ensures calls == if ok then [first, GetCurrentUserCall] else [first]
      ensures user == if ok then current else old(user)
      ensures !isLoading
    {
      isLoading := true;
      if ok {
        calls := [first, GetCurrentUserCall];
        user := current;
        thrown := false;
      } else {
        calls := [first];
        thrown := true;
      }
      isLoading := false;
    }

    /** `signIn` */
    method SignIn(email: string, password: string, ok: bool, current: Option<User>)
      returns (calls: seq<AuthCall>, thrown: bool)
      modifies this
      ensures thrown <==> !ok
      ensures calls == if ok then [SignInCall(email, password), GetCurrentUserCall] else [SignInCall(email, password)]
      ensures user == if ok then current else old(user)
      ensures !isLoading
    {
      calls, thrown := SignInThenFetchUser(SignInCall(email, password), ok, current);
    }

    /** `signUp`: creates the account, which the SDK binding also signs in. */
    method SignUp(email: string, password: string, name: string, ok: bool, current: Option<User>)
      returns (calls: seq<AuthCall>, thrown: bool)
      modifies this
      ensures thrown <==> !ok
      ensures calls == if ok then [CreateAccountCall(email, password, name), GetCurrentUserCall]
                       else [CreateAccountCall(email, password, name)]
      ensures user == if ok then current else old(user)
      ensures !isLoading
    {
      calls, thrown := SignInThenFetchUser(CreateAccountCall(email, password, name), ok, current);
    }

    /** `signInWithGoogle` */
    method SignInWithGoogle(ok: bool, current: Option<User>) returns (calls: seq<AuthCall>, thrown: bool)
      modifies this
      ensures thrown <==> !ok
      ensures calls == if ok then [GoogleSignInCall, GetCurrentUserCall] else [GoogleSignInCall]
      ensures user == if ok then current else old(user)
      ensures !isLoading
    {
      calls, thrown := SignInThenFetchUser(GoogleSignInCall, ok, current);
    }

    /** `signOut`: the user is cleared only when the SDK call succeeds. */
    method SignOut(ok: bool) returns (calls: seq<AuthCall>, thrown: bool)
      modifies this
      ensures calls == [SignOutCall]
      ensures thrown <==> !ok
      ensures user == if ok then None else old(user)
      ensures !isLoading
    {
      isLoading := true;
      calls := [SignOutCall];
      if ok {
        user := None;
        thrown := false;
      } else {
        thrown := true;
      }
      isLoading := false;
    }
  }

  /** `useAppwrite` */
  function UseAppwrite(ctx: Option<AppwriteProvider>): (r: Result<AppwriteProvider, string>)
    ensures r.Ok? <==> ctx.Some?
    ensures r.Err? ==> r.error == "useAppwrite must be used within an AppwriteProvider"
  {
    RequireProvider(ctx, "useAppwrite must be used within an AppwriteProvider")
  }

  /** A session restored on mount survives a failed sign-out and a failed
      sign-in, and is gone after a successful sign-out. */
  method SessionLifecycle(u: User) returns (afterFailures: Option<User>, afterSignOut: Option<User>, loading: bool)
    ensures afterFailures == Some(u)
    ensures afterSignOut == None
    ensures !loading
  {
    var provider := new AppwriteProvider();
    var c0 := provider.CheckUserSession(Succeeded(Some(u)));
    var c1, t1 := provider.SignOut(false);
    var c2, t2 := provider.SignIn("a@b.c", "wrong", false, None);
    afterFailures := provider.user;
    var c3, t3 := provider.SignOut(true);
    afterSignOut, loading := provider.user, provider.isLoading;
  }

  /** A sign-in whose sign-in call succeeds but whose `getCurrentUser` answers
      `null` leaves nobody authenticated, without an error. */
  method SignInWithoutCurrentUser() returns (authenticated: bool, thrown: bool)
    ensures !authenticated && !thrown
  {
    var provider := new AppwriteProvider();
    var calls;
    calls, thrown := provider.SignIn("a@b.c", "secret", true, None);
    authenticated := provider.IsAuthenticated();
  }
}
