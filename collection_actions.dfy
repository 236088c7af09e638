/**
 * The collection action creators and the store they dispatch to. Dispatch is
 * an append to the store's action log followed by one reducer step; the
 * HTTP response and the contract calls are values handed in or handed back.
 */
module CollectionActions {
  import opened CollectionTypes
  import opened Reducer

  /** The `data` of the response to `GET /api/collections`. */
  datatype ApiResponse = ApiResponse(success: bool, result: seq<Collection>)

  /**
   * The application store, reduced to its collection slice: every action
   * dispatched so far, in order, and the state the reducer has made of them.
   */
  class Store {
    var log: seq<Action>
    var state: CollectionState

    /** The state is always the reducer run over the whole log from the initial state. */
    ghost predicate Valid()
      reads this
    {
      state == ReduceAll(InitialState(), log)
    }

    constructor ()
      ensures Valid() && log == [] && state == InitialState()
    {
      log := [];
      state := InitialState();
    }

    /** Records `a` and moves the state on by one reducer step. */
    method Dispatch(a: Action)
      requires Valid()
      modifies this
      ensures Valid()
      ensures log == old(log) + [a]
      ensures state == Reduce(old(state), a)
    {
      ReduceAllSnoc(InitialState(), log, a);
      state := CollectionReducer(state, a);
      log := log + [a];
    }
  }

  /**
   * Handles the response of `GET /api/collections`: one GET_COLLECTIONS
   * whose payload holds the response's result when it reports success, and no
   * dispatch at all otherwise. Composed with the reducer, a successful fetch
   * leaves exactly the fetched list in the store.
   */
  method GetCollections(store: Store, data: ApiResponse)
    requires store.Valid()
    modifies store
    ensures store.Valid()
    ensures data.success ==> store.log == old(store.log) + [Action.GetCollections(CollectionState(data.result))]
    ensures !data.success ==> store.log == old(store.log)
    ensures data.success ==> store.state.collections == data.result
    ensures !data.success ==> store.state == old(store.state)
  {
    if data.success {
      store.Dispatch(Action.GetCollections(CollectionState(data.result)));
    }
  }

  /**
   * Dispatches exactly one ADD_NEW_COLLECTION carrying `collection` as it was
   * given; the store's list gains it at the end.
   */
  method AddNewCollection(store: Store, collection: Collection)
    requires store.Valid()
    modifies store
    ensures store.Valid()
    ensures store.log == old(store.log) + [Action.AddNewCollection(collection)]
    ensures store.state.collections == old(store.state.collections) + [collection]
  {
    store.Dispatch(Action.AddNewCollection(collection));
  }

  /**
   * The `deployCollection` call on the manager contract: the record's title,
   * symbol, base URI, logo URI and maximum supply in that order, then its mint
   * price after one ether-to-wei conversion, sent from `auth.authAddress`.
   * `toWei` is None for a price it refuses to convert; the action then fails
   * before anything is sent.
   */
  function DeployCollection(collection: Collection, auth: Auth, toWei: string -> Option<string>): (call: Option<ChainCall>)
    ensures call.None? <==> toWei(collection.mint_price).None?
    ensures call.Some? ==> call.value.DeployCall? && call.value.from == auth.authAddress
    ensures call.Some? ==>
      (call.value.title, call.value.symbol, call.value.baseUri, call.value.logoUri, call.value.maxSupply)
      == (collection.title, collection.symbol, collection.base_uri, collection.logo_uri, collection.max_supply)
    ensures call.Some? ==> call.value.mintPriceWei == toWei(collection.mint_price).value
  {
    match toWei(collection.mint_price)
    case None => None
    case Some(wei) =>
      Some(DeployCall(auth.authAddress, collection.title, collection.symbol, collection.base_uri,
                      collection.logo_uri, collection.max_supply, wei))
  }

  /**
   * The `setLogoURI` call for a collection: sent to the collection's own
   * contract, carrying its logo URI and nothing else, from `auth.authAddress`.
   * It dispatches nothing, so the store does not change.
   */
  function UpdateCollection(collection: Collection, auth: Auth): (call: ChainCall)
    ensures call.SetLogoUriCall?
    ensures call.contract == collection.address
    ensures call.logoUri == collection.logo_uri
    ensures call.from == auth.authAddress
  {
    SetLogoUriCall(collection.address, auth.authAddress, collection.logo_uri)
  }
}
