/**
 * The collection screen of the admin dashboard: the fields of its form and
 * modals, and the handlers that set them. What a handler sends to the chain
 * or the backend is recorded in `effects`, in order; what the backend or the
 * chain answers is a parameter of the handler that awaits it.
 */
module DashboardCollection {
  import opened CollectionTypes
  import CollectionActions

  /** A dropped file: its MIME type and an opaque name. */
  datatype DroppedFile = DroppedFile(name: string, mime: string)

  /** The row a list item hands to the update and delete handlers. */
  datatype ListItem = ListItem(collectionId: string, img: string, title: string)

  /** The body of the backend's save-collection request. */
  datatype SaveRecord = SaveRecord(title: string, symbol: string, initBaseURI: string,
                                   initLogoURI: string, maxSupply: string, mintPrice: string,
                                   address: string)

  /** What a handler sends out, in the order it sends it. */
  datatype Effect =
    | Chain(call: ChainCall)
    | UploadImage(file: DroppedFile)
    | RemoveImageRequest(url: string)
    | SaveCollectionRequest(record: SaveRecord)
    | DeleteCollectionRequest(id: string)
    | RefetchCollections

  /** What the image upload resolves to: its value, or a failure. */
  datatype UploadOutcome = Uploaded(url: string) | UploadFailed

  /** The five text inputs of the add-collection modal. */
  datatype TextField = TitleField | SymbolField | BaseUriField | MaxSupplyField | MintPriceField

  /** A snapshot of every field of the screen. */
  datatype FormFields = FormFields(
    visibleModal: bool,
    visibleDelModal: bool,
    collectionId: string,
    imageUrl: string,
    file: Option<DroppedFile>,
    title: string,
    symbol: string,
    initBaseURI: string,
    maxSupply: string,
    mintPrice: string)

  /** The string method `slice(start, end)` for non-negative bounds: both clamp to the length. */
  function Slice(s: string, start: nat, end: nat): (r: string)
    ensures |r| <= |s|
  {
    var hi := if end < |s| then end else |s|;
    var lo := if start < hi then start else hi;
    s[lo..hi]
  }

  /**
   * The MIME guard of the drop handler: the first six characters of the type
   * are `image/`. Because `slice` clamps, a type shorter than six characters
   * never passes.
   */
  function IsImageMime(mime: string): (b: bool)
    ensures b <==> |mime| >= 6 && mime[..6] == "image/"
  {
    Slice(mime, 0, 6) == "image/"
  }

  /** The drop handler uploads only a non-empty drop whose first file is an image. */
  function CanUpload(files: seq<DroppedFile>): (b: bool)
    ensures b <==> |files| > 0 && "image/" <= files[0].mime
  {
    |files| > 0 && IsImageMime(files[0].mime)
  }

  /** The six inputs `save` requires, in the order it tests them. */
  function RequiredInputs(f: FormFields): (req: seq<string>)
    ensures |req| == 6
  {
    [f.imageUrl, f.title, f.symbol, f.initBaseURI, f.maxSupply, f.mintPrice]
  }

  /**
   * The required-input check of `save`: none of image, title, symbol, base
   * URI, maximum supply and mint price is empty.
   */
  function AllFieldsPresent(f: FormFields): (b: bool)
    ensures b <==> "" !in RequiredInputs(f)
  {
    var req := RequiredInputs(f);
    assert req[0] == f.imageUrl && req[1] == f.title && req[2] == f.symbol;
    assert req[3] == f.initBaseURI && req[4] == f.maxSupply && req[5] == f.mintPrice;
    !(f.imageUrl == "" || f.title == "" || f.symbol == "" || f.initBaseURI == ""
      || f.maxSupply == "" || f.mintPrice == "")
  }

  /**
   * The deployment `save` sends: title, symbol, base URI, image URL and
   * maximum supply in that order, then the mint price converted to wei once,
   * sent from `auth.address`. When `toWei` refuses the price, `save` stops
   * there and nothing is sent.
   */
  function DeployCallOf(f: FormFields, auth: Auth, toWei: string -> Option<string>): (call: Option<ChainCall>)
    ensures call.None? <==> toWei(f.mintPrice).None?
    ensures call.Some? ==> call.value.DeployCall? && call.value.from == auth.address
    ensures call.Some? ==>
      (call.value.title, call.value.symbol, call.value.baseUri, call.value.logoUri, call.value.maxSupply)
      == (f.title, f.symbol, f.initBaseURI, f.imageUrl, f.maxSupply)
    ensures call.Some? ==> call.value.mintPriceWei == toWei(f.mintPrice).value
  {
    match toWei(f.mintPrice)
    case None => None
    case Some(wei) => Some(DeployCall(auth.address, f.title, f.symbol, f.initBaseURI, f.imageUrl, f.maxSupply, wei))
  }

  /**
   * The record `saveCollection` posts for the contract at `address`: the form
   * as it stands, the image as the initial logo, the mint price unconverted.
   */
  function SaveRecordOf(f: FormFields, address: string): (r: SaveRecord)
    ensures r.title == f.title && r.symbol == f.symbol && r.initBaseURI == f.initBaseURI
    ensures r.maxSupply == f.maxSupply
    ensures r.initLogoURI == f.imageUrl && r.mintPrice == f.mintPrice && r.address == address
  {
    SaveRecord(f.title, f.symbol, f.initBaseURI, f.imageUrl, f.maxSupply, f.mintPrice, address)
  }

  /** The draft the form holds, as the record shape the deployment action takes. */
  function DraftCollection(f: FormFields): (c: Collection)
    ensures c.title == f.title && c.symbol == f.symbol && c.logo_uri == f.imageUrl
    ensures c.base_uri == f.initBaseURI && c.mint_price == f.mintPrice && c.max_supply == f.maxSupply
  {
    Collection(f.title, f.symbol, f.imageUrl, f.initBaseURI, f.mintPrice, f.maxSupply, "", "")
  }

  /**
   * The inline deployment of `save` and the `deployCollection` action creator
   * send the same arguments in the same order, with the price converted once,
   * whenever they send from the same account; and both send nothing for a
   * price the conversion refuses.
   */
  lemma SaveMatchesDeployAction(f: FormFields, auth: Auth, toWei: string -> Option<string>)
    requires auth.address == auth.authAddress
    ensures DeployCallOf(f, auth, toWei) == CollectionActions.DeployCollection(DraftCollection(f), auth, toWei)
  {
  }

  /**
   * The chain call and the backend record describe the same draft: same
   * title, symbol, base URI, logo and supply; the chain gets the converted
   * price and the backend the unconverted one.
   */
  lemma DeployAndRecordAgree(f: FormFields, auth: Auth, toWei: string -> Option<string>, address: string)
    ensures var call, rec := DeployCallOf(f, auth, toWei), SaveRecordOf(f, address);
      && (call.None? <==> toWei(rec.mintPrice).None?)
      && (call.Some? ==>
          && (call.value.title, call.value.symbol, call.value.baseUri, call.value.logoUri, call.value.maxSupply)
             == (rec.title, rec.symbol, rec.initBaseURI, rec.initLogoURI, rec.maxSupply)
          && call.value.mintPriceWei == toWei(rec.mintPrice).value)
  {
  }

  /** The screen's state: its fields and what its handlers have sent out. */
  class CollectionForm {
    var visibleModal: bool
    var visibleDelModal: bool
    var collectionId: string
    var imageUrl: string
    var file: Option<DroppedFile>
    var title: string
    var symbol: string
    var initBaseURI: string
    var maxSupply: string
    var mintPrice: string
    var effects: seq<Effect>

    /** All the fields, as one value. */
    function Fields(): (ff: FormFields)
      reads this
    {
      FormFields(visibleModal, visibleDelModal, collectionId, imageUrl, file, title, symbol,
                 initBaseURI, maxSupply, mintPrice)
    }

    /** The screen's initial state; the base URI starts as the API URL followed by `/token/`. */
    constructor (apiUrl: string)
      ensures Fields() == FormFields(false, false, "", "", None, "", "", apiUrl + "/token/", "", "")
      ensures effects == []
    {
      visibleModal := false;
      visibleDelModal := false;
      collectionId := "";
      imageUrl := "";
      file := None;
      title := "";
      symbol := "";
      initBaseURI := apiUrl + "/token/";
      maxSupply := "";
      mintPrice := "";
      effects := [];
    }

    /** One of the five text inputs changes. */
    method SetText(field: TextField, value: string)
      modifies this
      ensures Fields() == match field
        case TitleField => old(Fields()).(title := value)
        case SymbolField => old(Fields()).(symbol := value)
        case BaseUriField => old(Fields()).(initBaseURI := value)
        case MaxSupplyField => old(Fields()).(maxSupply := value)
        case MintPriceField => old(Fields()).(mintPrice := value)
      ensures effects == old(effects)
    {
      match field {
        case TitleField => title := value;
        case SymbolField => symbol := value;
        case BaseUriField => initBaseURI := value;
        case MaxSupplyField => maxSupply := value;
        case MintPriceField => mintPrice := value;
      }
    }

    /**
     * A drop: when the guard passes, the first file is uploaded, and only a
     * successful upload sets the image URL and the file. A drop the guard
     * refuses, or an upload that fails, leaves every field as it was.
     */
    method OnDrop(files: seq<DroppedFile>, upload: UploadOutcome)
      modifies this
      ensures !CanUpload(files) ==> Fields() == old(Fields()) && effects == old(effects)
      ensures CanUpload(files) ==> effects == old(effects) + [UploadImage(files[0])]
      ensures CanUpload(files) && upload.UploadFailed? ==> Fields() == old(Fields())
      ensures CanUpload(files) && upload.Uploaded? ==>
        Fields() == old(Fields()).(imageUrl := upload.url, file := Some(files[0]))
    {
      if |files| > 0 && IsImageMime(files[0].mime) {
        var uploadedFile := files[0];
        effects := effects + [UploadImage(uploadedFile)];
        match upload {
          case Uploaded(url) =>
            imageUrl := url;
            file := Some(uploadedFile);
          case UploadFailed =>
        }
      }
    }

    /** Asks the backend to remove the current image, then clears the image URL and the file. */
    method RemoveImage()
      modifies this
      ensures effects == old(effects) + [RemoveImageRequest(old(imageUrl))]
      ensures Fields() == old(Fields()).(imageUrl := "", file := None)
    {
      effects := effects + [RemoveImageRequest(imageUrl)];
      imageUrl := "";
      file := None;
    }

    /**
     * With any required input empty, nothing changes and nothing is sent. With
     * all six present, the modal closes; then exactly one deployment is sent,
     * unless the conversion refuses the mint price, which ends `save` with
     * the modal closed and nothing sent.
     */
    method Save(auth: Auth, toWei: string -> Option<string>)
      modifies this
      ensures !AllFieldsPresent(old(Fields())) ==> Fields() == old(Fields()) && effects == old(effects)
      ensures AllFieldsPresent(old(Fields())) ==> Fields() == old(Fields()).(visibleModal := false)
      ensures AllFieldsPresent(old(Fields())) && toWei(old(mintPrice)).None? ==> effects == old(effects)
      ensures AllFieldsPresent(old(Fields())) && toWei(old(mintPrice)).Some? ==>
        effects == old(effects) + [Chain(DeployCallOf(old(Fields()), auth, toWei).value)]
    {
      if !(imageUrl == "" || title == "" || symbol == "" || initBaseURI == ""
           || maxSupply == "" || mintPrice == "") {
        visibleModal := false;
        var wei := toWei(mintPrice);
        if wei.None? {
          return;
        }
        effects := effects + [Chain(DeployCall(auth.address, title, symbol, initBaseURI, imageUrl,
                                               maxSupply, wei.value))];
      }
    }

    /**
     * The confirmation of a deployment at `address`: posts the record built
     * from the form, and asks for the list again only when the backend
     * reports success. No field changes.
     */
    method SaveCollection(address: string, saved: bool)
      modifies this
      ensures Fields() == old(Fields())
      ensures effects == old(effects) + [SaveCollectionRequest(SaveRecordOf(old(Fields()), address))]
                         + (if saved then [RefetchCollections] else [])
    {
      var data := SaveRecord(title, symbol, initBaseURI, imageUrl, maxSupply, mintPrice, address);
      effects := effects + [SaveCollectionRequest(data)];
      if saved {
        effects := effects + [RefetchCollections];
      }
    }

    /**
     * Closes the add modal and clears the collection id, the image URL and
     * the title; symbol, base URI, supply, price and file are kept.
     */
    method Cancel()
      modifies this
      ensures Fields() == old(Fields()).(visibleModal := false, collectionId := "", imageUrl := "", title := "")
      ensures effects == old(effects)
    {
      visibleModal := false;
      collectionId := "";
      imageUrl := "";
      title := "";
    }

    /** Opens the add modal on an existing row: its id, image and title. */
    method Update(item: ListItem)
      modifies this
      ensures Fields() == old(Fields()).(visibleModal := true, collectionId := item.collectionId,
                                         imageUrl := item.img, title := item.title)
      ensures effects == old(effects)
    {
      visibleModal := true;
      collectionId := item.collectionId;
      imageUrl := item.img;
      title := item.title;
    }

    /** Opens the delete modal on a row: its image and id. */
    method DeleteModal(item: ListItem)
      modifies this
      ensures Fields() == old(Fields()).(visibleDelModal := true, imageUrl := item.img,
                                         collectionId := item.collectionId)
      ensures effects == old(effects)
    {
      visibleDelModal := true;
      imageUrl := item.img;
      collectionId := item.collectionId;
    }

    /**
     * Asks the backend to remove the image and to delete the collection. Only
     * when the delete succeeds does it ask for the list again, close the
     * delete modal and clear the image URL and the id; otherwise every field
     * is kept.
     */
    method DeleteItem(deleted: bool)
      modifies this
      ensures effects == old(effects) + [RemoveImageRequest(old(imageUrl)), DeleteCollectionRequest(old(collectionId))]
                         + (if deleted then [RefetchCollections] else [])
      ensures deleted ==> Fields() == old(Fields()).(visibleDelModal := false, imageUrl := "", collectionId := "")
      ensures !deleted ==> Fields() == old(Fields())
    {
      effects := effects + [RemoveImageRequest(imageUrl)];
      effects := effects + [DeleteCollectionRequest(collectionId)];
      if deleted {
        effects := effects + [RefetchCollections];
        visibleDelModal := false;
        imageUrl := "";
        collectionId := "";
      }
    }

    /** Closes the delete modal and clears the id; the image URL is kept. */
    method CancelDelete()
      modifies this
      ensures Fields() == old(Fields()).(visibleDelModal := false, collectionId := "")
      ensures effects == old(effects)
    {
      visibleDelModal := false;
      collectionId := "";
    }
  }

  /** After a cancel, saving sends nothing: cancel clears the image URL and the title. */
  method CancelThenSave(form: CollectionForm, auth: Auth, toWei: string -> Option<string>)
    modifies form
    ensures form.effects == old(form.effects)
    ensures !form.visibleModal && form.imageUrl == "" && form.title == ""
  {
    form.Cancel();
    form.Save(auth, toWei);
  }

  /** After removing the image, saving sends nothing but the removal request. */
  method RemoveImageThenSave(form: CollectionForm, auth: Auth, toWei: string -> Option<string>)
    modifies form
    ensures form.effects == old(form.effects) + [RemoveImageRequest(old(form.imageUrl))]
    ensures form.imageUrl == "" && form.file == None
  {
    form.RemoveImage();
    form.Save(auth, toWei);
  }
}
