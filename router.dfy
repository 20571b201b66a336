// The route table of the web view and the guard run before every
// navigation. The components a route shows are left out; a route keeps
// its path, name, redirect, `meta` and children. The guard reads the
// target's `meta` (merged from every matched record, the child's field
// winning), the number of query keys and the user store's token.

module Router {
  import opened Wrappers
  import opened Text

  datatype Meta = Meta(requiresAuth: Option<bool>, requiresQuery: Option<bool>)

  const NoMeta := Meta(None, None)
  const Auth := Meta(Some(true), None)
  const Query := Meta(None, Some(true))

  datatype Route = Route(path: string, name: Option<string>, redirect: Option<string>, meta: Meta, children: seq<Route>)

  const SharePlaylistRoute := Route("share/:playlistId", Some("SharePlaylist"), None, NoMeta, [])
  const AccueilRoute := Route("accueil", Some("HomeTab"), None, NoMeta, [SharePlaylistRoute])
  const AmisRoute := Route("amis", Some("FriendsTab"), None, NoMeta, [])
  const SendPlaylistRoute := Route("send/:playlistId", Some("send-playlist"), None, NoMeta, [])
  const SharedRoute := Route("shared", Some("SharedPlaylistsTab"), None, NoMeta, [SendPlaylistRoute])
  const ProfilRoute := Route("profil", Some("ProfileTab"), None, NoMeta, [])
  const HomeRoute := Route("/home", Some("Home"), Some("/home/accueil"), Auth,
    [AccueilRoute, AmisRoute, SharedRoute, ProfilRoute])
  const LoginRoute := Route("/login", Some("Login"), None, NoMeta, [])
  const RootRoute := Route("/", None, Some("/home/accueil"), NoMeta, [])
  const AccountRoutes := [
    Route("/register", Some("Register"), None, NoMeta, []),
    Route("/forgot-password", Some("ForgotPassword"), None, NoMeta, []),
    Route("/reset-password", Some("ResetPassword"), None, Query, [])
  ]

  /** The table, in declaration order. */
  const Routes: seq<Route> := [LoginRoute, RootRoute, HomeRoute] + AccountRoutes

  /** A route as the router resolves it: its full path and merged `meta`. */
  datatype Entry = Entry(fullPath: string, name: Option<string>, redirect: Option<string>, meta: Meta)

  /** Object spread of the parent's `meta` and then the child's. */
  function MergeMeta(parent: Meta, child: Meta): (m: Meta)
    ensures m.requiresAuth == (if child.requiresAuth.Some? then child.requiresAuth else parent.requiresAuth)
    ensures m.requiresQuery == (if child.requiresQuery.Some? then child.requiresQuery else parent.requiresQuery)
  {
    Meta(if child.requiresAuth.Some? then child.requiresAuth else parent.requiresAuth,
         if child.requiresQuery.Some? then child.requiresQuery else parent.requiresQuery)
  }

  /** A child's relative path is joined to its parent's with a slash. */
  function JoinPath(prefix: string, path: string): string
  {
    if prefix == "" then path else prefix + "/" + path
  }

  /** Every record of `rs` and, after each, its descendants. */
  function FlattenAll(rs: seq<Route>, prefix: string, inherited: Meta): seq<Entry>
    decreases rs
  {
    if rs == [] then []
    else Flatten(rs[0], prefix, inherited) + FlattenAll(rs[1..], prefix, inherited)
  }

  function Flatten(r: Route, prefix: string, inherited: Meta): seq<Entry>
    decreases r
  {
    var full := JoinPath(prefix, r.path);
    var meta := MergeMeta(inherited, r.meta);
    [Entry(full, r.name, r.redirect, meta)] + FlattenAll(r.children, full, meta)
  }

  function Table(): seq<Entry> { FlattenAll(Routes, "", NoMeta) }

  function IsSet(flag: Option<bool>): bool { flag == Some(true) }

  const AccueilEntries: seq<Entry> := [
    Entry("/home/accueil", Some("HomeTab"), None, Auth),
    Entry("/home/accueil/share/:playlistId", Some("SharePlaylist"), None, Auth)
  ]

  const SharedEntries: seq<Entry> := [
    Entry("/home/shared", Some("SharedPlaylistsTab"), None, Auth),
    Entry("/home/shared/send/:playlistId", Some("send-playlist"), None, Auth)
  ]

  /** The `/home` record and the tabs under it, all requiring a login. */
  const HomeEntries: seq<Entry> :=
    [Entry("/home", Some("Home"), Some("/home/accueil"), Auth)]
    + AccueilEntries
    + [Entry("/home/amis", Some("FriendsTab"), None, Auth)]
    + SharedEntries
    + [Entry("/home/profil", Some("ProfileTab"), None, Auth)]

  /** The login page and the root redirect. */
  const EntryPages: seq<Entry> := [
    Entry("/login", Some("Login"), None, NoMeta),
    Entry("/", None, Some("/home/accueil"), NoMeta)
  ]

  const AccountEntries: seq<Entry> := [
    Entry("/register", Some("Register"), None, NoMeta),
    Entry("/forgot-password", Some("ForgotPassword"), None, NoMeta),
    Entry("/reset-password", Some("ResetPassword"), None, Query)
  ]

  lemma FlattenLeaf(r: Route, prefix: string, inherited: Meta)
    requires r.children == []
    ensures Flatten(r, prefix, inherited) == [Entry(JoinPath(prefix, r.path), r.name, r.redirect, MergeMeta(inherited, r.meta))]
  {
  }

  lemma FlattenCons(r: Route, rs: seq<Route>, prefix: string, inherited: Meta)
    ensures FlattenAll([r] + rs, prefix, inherited) == Flatten(r, prefix, inherited) + FlattenAll(rs, prefix, inherited)
  {
    assert ([r] + rs)[1..] == rs;
  }

  lemma FlattenSingle(r: Route, prefix: string, inherited: Meta)
    ensures FlattenAll([r], prefix, inherited) == Flatten(r, prefix, inherited)
  {
  }

  /** The full paths of the nested routes. */
  lemma JoinedPaths()
    ensures JoinPath("/home", "accueil") == "/home/accueil"
    ensures JoinPath("/home", "shared") == "/home/shared"
    ensures JoinPath("/home", "amis") == "/home/amis"
    ensures JoinPath("/home", "profil") == "/home/profil"
  {
  }

  lemma SharePath()
    ensures JoinPath("/home/accueil", "share/:playlistId") == "/home/accueil/share/:playlistId"
  {
  }

  lemma SendPath()
    ensures JoinPath("/home/shared", "send/:playlistId") == "/home/shared/send/:playlistId"
  {
  }

  lemma AccueilTree()
    ensures Flatten(AccueilRoute, "/home", Auth) == AccueilEntries
  {
    JoinedPaths();
    SharePath();
    FlattenLeaf(SharePlaylistRoute, "/home/accueil", Auth);
    FlattenSingle(SharePlaylistRoute, "/home/accueil", Auth);
  }

  lemma SharedTree()
    ensures Flatten(SharedRoute, "/home", Auth) == SharedEntries
  {
    JoinedPaths();
    SendPath();
    FlattenLeaf(SendPlaylistRoute, "/home/shared", Auth);
    FlattenSingle(SendPlaylistRoute, "/home/shared", Auth);
  }

  lemma LeafTabs()
    ensures Flatten(AmisRoute, "/home", Auth) == [Entry("/home/amis", Some("FriendsTab"), None, Auth)]
    ensures Flatten(ProfilRoute, "/home", Auth) == [Entry("/home/profil", Some("ProfileTab"), None, Auth)]
  {
    JoinedPaths();
    FlattenLeaf(AmisRoute, "/home", Auth);
    FlattenLeaf(ProfilRoute, "/home", Auth);
  }

  lemma HomeTree()
    ensures Flatten(HomeRoute, "", NoMeta) == HomeEntries
  {
    AccueilTree();
    SharedTree();
    LeafTabs();
    FlattenSingle(ProfilRoute, "/home", Auth);
    FlattenCons(SharedRoute, [ProfilRoute], "/home", Auth);
    FlattenCons(AmisRoute, [SharedRoute, ProfilRoute], "/home", Auth);
    FlattenCons(AccueilRoute, [AmisRoute, SharedRoute, ProfilRoute], "/home", Auth);
  }

  lemma AccountTree()
    ensures FlattenAll(AccountRoutes, "", NoMeta) == AccountEntries
  {
    var tail := AccountRoutes;
    FlattenLeaf(tail[0], "", NoMeta);
    FlattenLeaf(tail[1], "", NoMeta);
    FlattenLeaf(tail[2], "", NoMeta);
    FlattenSingle(tail[2], "", NoMeta);
    FlattenCons(tail[1], [tail[2]], "", NoMeta);
    FlattenCons(tail[0], [tail[1], tail[2]], "", NoMeta);
  }

  /** The resolved table: the login page, the root redirect, the `/home`
      tree and the three account pages, in declaration order. */
  lemma TableShape()
    ensures Table() == EntryPages + HomeEntries + AccountEntries
  {
    HomeTree();
    AccountTree();
    FlattenLeaf(LoginRoute, "", NoMeta);
    FlattenLeaf(RootRoute, "", NoMeta);
    FlattenCons(HomeRoute, AccountRoutes, "", NoMeta);
    FlattenCons(RootRoute, [HomeRoute] + AccountRoutes, "", NoMeta);
    FlattenCons(LoginRoute, [RootRoute, HomeRoute] + AccountRoutes, "", NoMeta);
    assert Routes == [LoginRoute] + ([RootRoute] + ([HomeRoute] + AccountRoutes));
  }

  datatype Decision = Proceed | RedirectToPath(path: string) | RedirectToName(name: string)

  /** The `beforeEach` guard. `token == None` is a null or undefined token
      (the source compares with `==`). */
  function Guard(meta: Meta, queryKeys: nat, token: Option<string>): (d: Decision)
    ensures d == RedirectToPath("/") <==> IsSet(meta.requiresQuery) && queryKeys == 0
    ensures d == RedirectToName("Login") <==>
      !(IsSet(meta.requiresQuery) && queryKeys == 0) && IsSet(meta.requiresAuth) && token.None?
    ensures d == Proceed <==>
      !(IsSet(meta.requiresQuery) && queryKeys == 0) && !(IsSet(meta.requiresAuth) && token.None?)
  {
    if IsSet(meta.requiresQuery) && queryKeys == 0 then RedirectToPath("/")
    else if IsSet(meta.requiresAuth) && token.None? then RedirectToName("Login")
    else Proceed
  }

  /** How the guard sees a resolved route: under `/home` and requiring a
      login, the reset page requiring a query, or open. */
  predicate Classified(e: Entry)
  {
    if IsPrefix("/home", e.fullPath) then e.meta == Auth && e.fullPath != "/reset-password"
    else if e.fullPath == "/reset-password" then e.meta == Query
    else e.meta == NoMeta
  }

  lemma HomeEntriesClassified()
    ensures forall e :: e in HomeEntries ==> Classified(e)
  {
    forall e | e in HomeEntries
      ensures Classified(e)
    {
      assert e.fullPath[..5] == "/home" && e.fullPath[1] == 'h';
    }
  }

  lemma OtherEntriesClassified()
    ensures forall e :: e in EntryPages + AccountEntries ==> Classified(e)
  {
    forall e | e in EntryPages + AccountEntries
      ensures Classified(e)
    {
      assert |e.fullPath| < 5 || e.fullPath[1] != 'h';
    }
  }

  lemma TableClassified()
    ensures forall e :: e in Table() ==> Classified(e)
  {
    TableShape();
    HomeEntriesClassified();
    OtherEntriesClassified();
    forall e | e in Table()
      ensures e in HomeEntries || e in EntryPages + AccountEntries
    {
    }
  }

  /** Over the table: without a token every page under `/home` sends the
      user to the login page and every other page opens, except that a reset
      link without its query goes back to `/`, whatever the token. */
  lemma GuardOverTable(queryKeys: nat, token: Option<string>)
    ensures forall e :: e in Table() && e.fullPath != "/reset-password" ==>
      (Guard(e.meta, queryKeys, token) == RedirectToName("Login") <==> IsPrefix("/home", e.fullPath) && token.None?)
    ensures forall e :: e in Table() && e.fullPath != "/reset-password" ==>
      (Guard(e.meta, queryKeys, token) == Proceed <==> !(IsPrefix("/home", e.fullPath) && token.None?))
    ensures forall e :: e in Table() && e.fullPath == "/reset-password" ==>
      Guard(e.meta, queryKeys, token) == (if queryKeys == 0 then RedirectToPath("/") else Proceed)
  {
    TableClassified();
  }
}
