/**
 * Values shared by the collection store, its action creators, the app shell
 * and the dashboard form.
 */
module CollectionTypes {

  datatype Option<+T> = None | Some(value: T)

  /**
   * One collection as the client holds it: the record the app shell builds
   * from the on-chain reads of a freshly deployed collection contract, and the
   * shape the reducer reads (`address`) and writes (`logo_uri`).
   * Prices and supplies are the decimal strings the contract and the backend
   * hand over; nothing here interprets them.
   */
  datatype Collection = Collection(
    title: string,
    symbol: string,
    logo_uri: string,
    base_uri: string,
    mint_price: string,
    max_supply: string,
    address: string,
    owner: string)

  /** The collection slice of the application state. */
  datatype CollectionState = CollectionState(collections: seq<Collection>)

  /**
   * The actions the collection reducer may see. GetMintPrice is a type the
   * reducer imports but has no case for; Unknown stands for every action type
   * of the other reducers.
   */
  datatype Action =
    | GetCollections(payload: CollectionState)
    | AddNewCollection(collection: Collection)
    | UpdateCollection(address: string, new_logo_uri: string)
    | GetMintPrice
    | Unknown(kind: string)

  /**
   * A state-changing call sent to a contract, with the account it is sent
   * from: `deployCollection` on the manager contract, or `setLogoURI` on the
   * collection contract at address `contract`.
   */
  datatype ChainCall =
    | DeployCall(from: string, title: string, symbol: string, baseUri: string,
                 logoUri: string, maxSupply: string, mintPriceWei: string)
    | SetLogoUriCall(contract: string, from: string, logoUri: string)

  /**
   * The signed-in account as the auth slice holds it. The deployment action
   * sends from `authAddress`, the dashboard form sends from `address`; the
   * auth reducer that fills them is not part of this model.
   */
  datatype Auth = Auth(address: string, authAddress: string)

  /** Number of entries of `cs` whose address is `a`. */
  function CountAddress(cs: seq<Collection>, a: string): (n: nat)
  {
    if cs == [] then 0
    else (if cs[|cs| - 1].address == a then 1 else 0) + CountAddress(cs[..|cs| - 1], a)
  }

  /** True iff some entry of `cs` has address `a`. */
  predicate HasAddress(cs: seq<Collection>, a: string)
  {
    exists i :: 0 <= i < |cs| && cs[i].address == a
  }
}
