/**
 * The try-on studio page: the selected lead, the client photo, the chosen
 * garment, the processing flag and the (simulated) result, changed by the
 * page's event handlers.
 */
module Studio {
  import opened Optional
  import DataUrls

  datatype LeadStatus = Pending | Completed

  datatype Lead = Lead(id: string, phone: string, time: string, status: LeadStatus, hasPhoto: bool)

  datatype Product = Product(id: string, name: string, image: string)

  /** A chosen file, as the reader sees it: its media type and its base64 content. */
  datatype PhotoFile = PhotoFile(mimeType: string, base64: string)

  /** The first of the page's leads, selected when the page opens. */
  const FirstLead := Lead("r1", "5511999998888", "11:14", Pending, true)

  /** What the photo area shows. */
  datatype PhotoArea = ResultShown(result: string) | PhotoShown(photo: string) | UploadPrompt

  /** The photo area: the result when there is one, else the client photo, else the upload prompt. */
  function Display(clientPhoto: Option<string>, resultImage: Option<string>): (area: PhotoArea)
    ensures Truthy(resultImage) ==> area == ResultShown(resultImage.value)
    ensures !Truthy(resultImage) && Truthy(clientPhoto) ==> area == PhotoShown(clientPhoto.value)
    ensures area == UploadPrompt <==> !Truthy(resultImage) && !Truthy(clientPhoto)
  {
    if Truthy(resultImage) then ResultShown(resultImage.value)
    else if Truthy(clientPhoto) then PhotoShown(clientPhoto.value)
    else UploadPrompt
  }

  class TryOnStudio {
    var selectedLead: Option<Lead>
    var selectedProduct: Option<Product>
    var clientPhoto: Option<string>
    var resultImage: Option<string>
    var isProcessing: bool

    /** `canGenerate`: a non-empty client photo and a chosen garment. */
    predicate CanGenerate(): (ready: bool)
      reads this
      ensures ready ==> clientPhoto.Some? && selectedProduct.Some?
      ensures clientPhoto == None || clientPhoto == Some("") || selectedProduct == None ==> !ready
    {
      Truthy(clientPhoto) && selectedProduct.Some?
    }

    /** Processing only ever runs on a complete selection, and a result is always the current photo. */
    ghost predicate Valid()
      reads this
    {
      (isProcessing ==> CanGenerate()) && (resultImage.Some? ==> resultImage == clientPhoto)
    }

    constructor ()
      ensures Valid()
      ensures selectedLead == Some(FirstLead) && selectedProduct == None
      ensures clientPhoto == None && resultImage == None && !isProcessing
    {
      selectedLead := Some(FirstLead);
      selectedProduct := None;
      clientPhoto := None;
      resultImage := None;
      isProcessing := false;
    }

    /**
     * `handlePhotoUpload` once the reader has finished: the photo becomes
     * the file's data URL and any earlier result is cleared. Without a
     * file nothing changes.
     */
    method HandlePhotoUpload(file: Option<PhotoFile>)
      requires Valid()
      modifies this
      ensures Valid()
      ensures file.None? ==> clientPhoto == old(clientPhoto) && resultImage == old(resultImage)
      ensures file.Some? ==>
        clientPhoto == Some(DataUrls.DataUrl(file.value.mimeType, file.value.base64)) && resultImage == None
      ensures selectedLead == old(selectedLead) && selectedProduct == old(selectedProduct)
      ensures isProcessing == old(isProcessing)
    {
      if file.Some? {
        clientPhoto := Some(DataUrls.DataUrl(file.value.mimeType, file.value.base64));
        resultImage := None;
      }
    }

    /** Choosing a garment selects it and clears the result. */
    method SelectProduct(product: Product)
      requires Valid()
      modifies this
      ensures Valid()
      ensures selectedProduct == Some(product) && resultImage == None
      ensures selectedLead == old(selectedLead) && clientPhoto == old(clientPhoto) && isProcessing == old(isProcessing)
    {
      selectedProduct := Some(product);
      resultImage := None;
    }

    /** Choosing a lead selects it; nothing else changes. */
    method SelectLead(lead: Lead)
      requires Valid()
      modifies this
      ensures Valid()
      ensures selectedLead == Some(lead)
      ensures selectedProduct == old(selectedProduct) && clientPhoto == old(clientPhoto)
      ensures resultImage == old(resultImage) && isProcessing == old(isProcessing)
    {
      selectedLead := Some(lead);
    }

    /** `handleGenerate`: processing starts exactly when generation is possible. */
    method HandleGenerate()
      requires Valid()
      modifies this
      ensures Valid()
      ensures isProcessing == (old(CanGenerate()) || old(isProcessing))
      ensures selectedLead == old(selectedLead) && selectedProduct == old(selectedProduct)
      ensures clientPhoto == old(clientPhoto) && resultImage == old(resultImage)
    {
      if Truthy(clientPhoto) && selectedProduct.Some? {
        isProcessing := true;
      }
    }

    /** `handleProcessingComplete`: processing stops and the result is the current client photo. */
    method HandleProcessingComplete()
      requires Valid()
      modifies this
      ensures Valid()
      ensures !isProcessing && resultImage == clientPhoto
      ensures selectedLead == old(selectedLead) && selectedProduct == old(selectedProduct)
      ensures clientPhoto == old(clientPhoto)
    {
      isProcessing := false;
      resultImage := clientPhoto;
    }

    /** The photo area for the current state. */
    function PhotoAreaNow(): (area: PhotoArea)
      reads this
      requires Valid()
      ensures area.ResultShown? ==> Some(area.result) == clientPhoto
      ensures area == Display(clientPhoto, resultImage)
    {
      Display(clientPhoto, resultImage)
    }
  }

  /**
   * Upload, choose a garment, generate, complete: the result shown is the
   * uploaded photo's data URL.
   */
  method GenerateFlow(file: PhotoFile, product: Product) returns (area: PhotoArea)
    ensures area == ResultShown(DataUrls.DataUrl(file.mimeType, file.base64))
  {
    var studio := new TryOnStudio();
    studio.HandlePhotoUpload(Some(file));
    studio.SelectProduct(product);
    studio.HandleGenerate();
    assert studio.isProcessing;
    studio.HandleProcessingComplete();
    area := studio.PhotoAreaNow();
  }
}
