/**
 * The decisions of the application shell: who may see the privileged pages,
 * which screen a path shows, what an account change reports, and the record
 * built for each collection the manager contract announces.
 */
module AppShell {
  import opened CollectionTypes
  import opened CollectionActions

  /** Account kinds the auth slice assigns. */
  datatype AccountType = Guest | User | Admin | Owner

  /** True exactly for the two privileged account kinds; guests and plain users are refused. */
  function IsAdminOrOwner(t: AccountType): (b: bool)
    ensures b <==> !(t.Guest? || t.User?)
  {
    if t == Admin || t == Owner then true else false
  }

  /** The screens the router can show. */
  datatype Screen =
    | HomeScreen | AboutScreen | CharityScreen | FaqScreen | TermsScreen
    | DashboardScreen | ConnectWalletScreen | CollectionScreen | CreateItemScreen
    | CreateDetailsScreen | NotFoundScreen

  /** What a route renders: a screen, or a redirect (`replace` = replace the history entry). */
  datatype Element = Render(screen: Screen) | Redirect(to: string, replace: bool)

  /**
   * The guard around a privileged screen: a replacing redirect to the home
   * page for anyone who is not an admin or owner, the screen itself otherwise.
   */
  function ProtectedRoute(t: AccountType, children: Screen): (e: Element)
    ensures !IsAdminOrOwner(t) <==> e == Redirect("/", true)
    ensures IsAdminOrOwner(t) <==> e == Render(children)
  {
    if !IsAdminOrOwner(t) then Redirect("/", true) else Render(children)
  }

  /** A path pattern: a fixed path, a fixed prefix followed by one `:id` segment, or `*`. */
  datatype Pattern = Exact(path: string) | OneParam(prefix: string) | Wildcard

  datatype Route = Route(pattern: Pattern, screen: Screen, guarded: bool)

  /**
   * Whether `path` matches the pattern: a fixed path only itself, a
   * one-parameter pattern its prefix followed by one non-empty segment
   * without `/`, and `*` every path.
   */
  function Matches(p: Pattern, path: string): (b: bool)
    ensures p.Exact? ==> (b <==> path == p.path)
    ensures p.OneParam? ==> (b <==> exists id :: path == p.prefix + id && id != [] && '/' !in id)
    ensures p.Wildcard? ==> b
  {
    match p
    case Exact(s) => path == s
    case OneParam(prefix) =>
      if |prefix| < |path| && path[..|prefix|] == prefix then
        assert path == prefix + path[|prefix|..];
        '/' !in path[|prefix|..]
      else
        false
    case Wildcard => true
  }

  /** The route table, in the order the shell declares it. */
  const Routes: seq<Route> := [
    Route(Exact("/"), HomeScreen, false),
    Route(Exact("/about"), AboutScreen, false),
    Route(Exact("/charity"), CharityScreen, false),
    Route(Exact("/faq"), FaqScreen, false),
    Route(Exact("/terms"), TermsScreen, false),
    Route(Exact("/dashboard"), DashboardScreen, true),
    Route(Exact("/connect-wallet"), ConnectWalletScreen, false),
    Route(OneParam("/collection/"), CollectionScreen, false),
    Route(Exact("/create"), CreateItemScreen, false),
    Route(Exact("/create-details"), CreateDetailsScreen, true),
    Route(Exact("/404"), NotFoundScreen, false),
    Route(Wildcard, NotFoundScreen, false)
  ]

  /**
   * The index of the first route of `table`, from index `from` on, whose
   * pattern matches `path`, if any.
   */
  function FirstMatch(table: seq<Route>, path: string, from: nat): (k: Option<nat>)
    requires from <= |table|
    ensures k.Some? ==> from <= k.value < |table| && Matches(table[k.value].pattern, path)
    ensures k.Some? ==> forall j :: from <= j < k.value ==> !Matches(table[j].pattern, path)
    ensures k.None? <==> forall j :: from <= j < |table| ==> !Matches(table[j].pattern, path)
    decreases |table| - from
  {
    if from == |table| then None
    else if Matches(table[from].pattern, path) then Some(from)
    else FirstMatch(table, path, from + 1)
  }

  /**
   * What the shell renders at `path` for an account of kind `t`. An admin or
   * owner is never redirected, and every redirect is a replacing one to `/`.
   */
  function Resolve(path: string, t: AccountType): (e: Element)
    ensures IsAdminOrOwner(t) ==> e.Render?
    ensures e.Redirect? ==> e == Redirect("/", true)
  {
    match FirstMatch(Routes, path, 0)
    case None => Render(NotFoundScreen)
    case Some(k) =>
      if Routes[k].guarded then ProtectedRoute(t, Routes[k].screen) else Render(Routes[k].screen)
  }

  /** The paths of the fixed routes before the fallback. */
  const StaticPaths: seq<string> := [
    "/", "/about", "/charity", "/faq", "/terms", "/dashboard", "/connect-wallet",
    "/create", "/create-details", "/404"
  ]

  predicate IsCollectionPath(path: string)
  {
    Matches(OneParam("/collection/"), path)
  }

  /** A fixed route whose path differs from `path` passes the lookup on to the next route. */
  lemma SkipExact(path: string, i: nat, s: string)
    requires i < |Routes| && Routes[i].pattern == Exact(s) && s != path
    ensures FirstMatch(Routes, path, i) == FirstMatch(Routes, path, i + 1)
  {
  }

  /** So does the collection route, for a path that is not a collection page. */
  lemma SkipCollectionRoute(path: string, i: nat)
    requires i < |Routes| && Routes[i].pattern == OneParam("/collection/") && !IsCollectionPath(path)
    ensures FirstMatch(Routes, path, i) == FirstMatch(Routes, path, i + 1)
  {
  }

  /** Only the fallback route can catch a path outside the fixed routes and the collection pages. */
  lemma FallbackAt(path: string)
    requires path !in StaticPaths && !IsCollectionPath(path)
    ensures FirstMatch(Routes, path, 0) == Some(|Routes| - 1)
  {
    assert Routes[11].pattern == Wildcard;
    assert FirstMatch(Routes, path, 11) == Some(11);
    assert "/404" in StaticPaths;
    SkipExact(path, 10, "/404");
    assert "/create-details" in StaticPaths;
    SkipExact(path, 9, "/create-details");
    assert "/create" in StaticPaths;
    SkipExact(path, 8, "/create");
    SkipCollectionRoute(path, 7);
    assert "/connect-wallet" in StaticPaths;
    SkipExact(path, 6, "/connect-wallet");
    assert "/dashboard" in StaticPaths;
    SkipExact(path, 5, "/dashboard");
    assert "/terms" in StaticPaths;
    SkipExact(path, 4, "/terms");
    assert "/faq" in StaticPaths;
    SkipExact(path, 3, "/faq");
    assert "/charity" in StaticPaths;
    SkipExact(path, 2, "/charity");
    assert "/about" in StaticPaths;
    SkipExact(path, 1, "/about");
    assert "/" in StaticPaths;
    SkipExact(path, 0, "/");
  }

  /** Every path outside the exact route list resolves to the not-found page, for every account. */
  lemma UnknownPathIsNotFound(path: string, t: AccountType)
    requires path !in StaticPaths && !IsCollectionPath(path)
    ensures Resolve(path, t) == Render(NotFoundScreen)
  {
    FallbackAt(path);
  }

  lemma DashboardRoute(t: AccountType)
    ensures Resolve("/dashboard", t) == ProtectedRoute(t, DashboardScreen)
  {
    var p := "/dashboard";
    assert Routes[5] == Route(Exact(p), DashboardScreen, true);
    assert FirstMatch(Routes, p, 5) == Some(5);
    SkipExact(p, 4, "/terms");
    SkipExact(p, 3, "/faq");
    SkipExact(p, 2, "/charity");
    SkipExact(p, 1, "/about");
    SkipExact(p, 0, "/");
  }

  lemma CreateDetailsRoute(t: AccountType)
    ensures Resolve("/create-details", t) == ProtectedRoute(t, CreateDetailsScreen)
  {
    var p := "/create-details";
    assert !IsCollectionPath(p) by {
      assert p[..12][2] != "/collection/"[2];
    }
    assert Routes[9] == Route(Exact(p), CreateDetailsScreen, true);
    assert FirstMatch(Routes, p, 9) == Some(9);
    SkipExact(p, 8, "/create");
    SkipCollectionRoute(p, 7);
    SkipExact(p, 6, "/connect-wallet");
    SkipExact(p, 5, "/dashboard");
    SkipExact(p, 4, "/terms");
    SkipExact(p, 3, "/faq");
    SkipExact(p, 2, "/charity");
    SkipExact(p, 1, "/about");
    SkipExact(p, 0, "/");
  }

  /** A collection page, `/collection/` followed by one non-empty segment, shows the collection screen to everyone. */
  lemma CollectionPathRoute(path: string, t: AccountType)
    requires IsCollectionPath(path)
    ensures Resolve(path, t) == Render(CollectionScreen)
  {
    assert path[..12] == "/collection/";
    assert path[3] == 'l';
    assert path != "/connect-wallet" by { assert "/connect-wallet"[3] == 'n'; }
    assert FirstMatch(Routes, path, 7) == Some(7);
    SkipExact(path, 6, "/connect-wallet");
    SkipExact(path, 5, "/dashboard");
    SkipExact(path, 4, "/terms");
    SkipExact(path, 3, "/faq");
    SkipExact(path, 2, "/charity");
    SkipExact(path, 1, "/about");
    SkipExact(path, 0, "/");
  }

  /** The two guarded routes are those of `/dashboard` and `/create-details`. */
  lemma GuardedRoutes(j: nat)
    requires j < |Routes| && Routes[j].guarded
    ensures Routes[j].pattern == Exact("/dashboard") || Routes[j].pattern == Exact("/create-details")
  {
  }

  /**
   * Only `/dashboard` and `/create-details` are guarded: a path redirects
   * exactly when it is one of those two and the account is neither admin nor
   * owner, and the redirect is always a replacing one to `/`.
   */
  lemma OnlyTwoPathsGuarded(path: string, t: AccountType)
    ensures Resolve(path, t).Redirect? <==> (!IsAdminOrOwner(t) && (path == "/dashboard" || path == "/create-details"))
    ensures Resolve(path, t).Redirect? ==> Resolve(path, t) == Redirect("/", true)
  {
    if path == "/dashboard" {
      DashboardRoute(t);
    } else if path == "/create-details" {
      CreateDetailsRoute(t);
    } else {
      match FirstMatch(Routes, path, 0)
      case None =>
      case Some(k) =>
        if Routes[k].guarded {
          GuardedRoutes(k);
        }
    }
  }

  /**
   * The argument the shell passes on to the account-type check when the
   * wallet reports its accounts: the first account, or none when the list is
   * empty.
   */
  function AccountsChanged(accounts: seq<string>): (a: Option<string>)
    ensures a.None? <==> |accounts| == 0
    ensures a.Some? ==> a.value == accounts[0]
  {
    if |accounts| > 0 then Some(accounts[0]) else None
  }

  /**
   * The on-chain reads of a collection contract, keyed by the contract's
   * address and the accessor's name; None is a read that fails.
   */
  type ChainReads = (string, string) -> Option<string>

  /**
   * The record built for a `CollectionAdded` event at address `addr` from the
   * seven accessor reads of the new contract.
   */
  function NewCollectionRecord(addr: string, name: string, symbol: string, logoURI: string,
                               mintPrice: string, maxSupply: string, baseURI: string,
                               owner: string): (c: Collection)
    ensures c.title == name && c.symbol == symbol && c.logo_uri == logoURI && c.base_uri == baseURI
    ensures c.mint_price == mintPrice && c.max_supply == maxSupply
    ensures c.address == addr && c.owner == owner
  {
    Collection(name, symbol, logoURI, baseURI, mintPrice, maxSupply, addr, owner)
  }

  /** The accessors of a collection contract the shell reads, in the order it awaits them. */
  const Accessors: seq<string> := ["name", "symbol", "logoURI", "MINT_PRICE", "MAX_SUPPLY", "baseURI", "owner"]

  /** True when all seven accessor reads of the contract at `addr` succeed. */
  function ReadsSucceed(chain: ChainReads, addr: string): (b: bool)
    ensures b <==> forall i :: 0 <= i < |Accessors| ==> chain(addr, Accessors[i]).Some?
  {
    assert Accessors[0] == "name" && Accessors[1] == "symbol" && Accessors[2] == "logoURI";
    assert Accessors[3] == "MINT_PRICE" && Accessors[4] == "MAX_SUPPLY";
    assert Accessors[5] == "baseURI" && Accessors[6] == "owner";
    && chain(addr, "name").Some? && chain(addr, "symbol").Some? && chain(addr, "logoURI").Some?
    && chain(addr, "MINT_PRICE").Some? && chain(addr, "MAX_SUPPLY").Some?
    && chain(addr, "baseURI").Some? && chain(addr, "owner").Some?
  }

  /** The record built from the reads, when they all succeed. */
  function RecordFromReads(chain: ChainReads, addr: string): (c: Collection)
    requires ReadsSucceed(chain, addr)
    ensures c.title == chain(addr, "name").value && c.symbol == chain(addr, "symbol").value
    ensures c.logo_uri == chain(addr, "logoURI").value && c.mint_price == chain(addr, "MINT_PRICE").value
    ensures c.max_supply == chain(addr, "MAX_SUPPLY").value && c.base_uri == chain(addr, "baseURI").value
    ensures c.owner == chain(addr, "owner").value && c.address == addr
  {
    NewCollectionRecord(addr, chain(addr, "name").value, chain(addr, "symbol").value,
                        chain(addr, "logoURI").value, chain(addr, "MINT_PRICE").value,
                        chain(addr, "MAX_SUPPLY").value, chain(addr, "baseURI").value,
                        chain(addr, "owner").value)
  }

  /**
   * The handler for one `CollectionAdded` event carrying `addr`: the seven
   * reads one after another, then exactly one ADD_NEW_COLLECTION with the
   * record built from them. A failing read ends the handler before anything
   * is dispatched.
   */
  method OnCollectionAdded(store: Store, chain: ChainReads, addr: string)
    requires store.Valid()
    modifies store
    ensures store.Valid()
    ensures ReadsSucceed(chain, addr) ==>
      store.log == old(store.log) + [Action.AddNewCollection(RecordFromReads(chain, addr))]
    ensures ReadsSucceed(chain, addr) ==>
      store.state.collections == old(store.state.collections) + [RecordFromReads(chain, addr)]
    ensures !ReadsSucceed(chain, addr) ==> store.log == old(store.log) && store.state == old(store.state)
  {
    var name := chain(addr, "name");
    if name.None? { return; }
    var symbol := chain(addr, "symbol");
    if symbol.None? { return; }
    var logoURL := chain(addr, "logoURI");
    if logoURL.None? { return; }
    var mintPrice := chain(addr, "MINT_PRICE");
    if mintPrice.None? { return; }
    var maxSupply := chain(addr, "MAX_SUPPLY");
    if maxSupply.None? { return; }
    var baseURI := chain(addr, "baseURI");
    if baseURI.None? { return; }
    var owner := chain(addr, "owner");
    if owner.None? { return; }
    var newCollection := NewCollectionRecord(addr, name.value, symbol.value, logoURL.value,
                                             mintPrice.value, maxSupply.value, baseURI.value,
                                             owner.value);
    CollectionActions.AddNewCollection(store, newCollection);
  }
}
