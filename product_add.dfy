/** The admin "Add New Product" page: its form, the image picker's state,
    and the submission that goes back to the product list on success. */
module AdminProductAdd {
  import opened Catalog
  import opened ProductForm
  import opened ImageUpload

  /** The creation request the page sends. */
  datatype AddRequest = AddNewProduct(formData: FormData)

  class AdminProductAddPage {
    var formData: FormData
    const upload: ImageUploadState

    constructor ()
      ensures formData == InitialFormData()
      ensures fresh(upload) && upload.imageFiles == [] && upload.uploadedImageUrls == [] && !upload.imageLoadingState
    {
      formData := InitialFormData();
      upload := new ImageUploadState();
    }

    /** The button is disabled while the form is invalid or images are uploading. */
    predicate SubmitDisabled()
      reads this, upload
    {
      !IsFormValid(formData) || upload.imageLoadingState
    }

    /** Submit: the submission data is always sent; on success the form and
        both image lists are reset and the page goes to the product list. */
    method OnSubmit(succeeded: bool) returns (request: AddRequest, route: Option<string>)
      modifies this, upload
      ensures request == AddNewProduct(SubmissionData(old(formData), old(upload.uploadedImageUrls)))
      ensures succeeded ==>
                formData == InitialFormData() && upload.imageFiles == [] && upload.uploadedImageUrls == [] &&
                route == Some("/admin/products")
      ensures !succeeded ==>
                formData == old(formData) && upload.imageFiles == old(upload.imageFiles) &&
                upload.uploadedImageUrls == old(upload.uploadedImageUrls) && route.None?
      ensures upload.imageLoadingState == old(upload.imageLoadingState)
    {
      request := AddNewProduct(SubmissionData(formData, upload.uploadedImageUrls));
      route := None;
      if succeeded {
        formData := InitialFormData();
        upload.imageFiles := [];
        upload.uploadedImageUrls := [];
        route := Some("/admin/products");
      }
    }
  }

  /** A page just opened, or just reset by a successful submission, cannot
      submit until the text fields are filled. */
  lemma FreshPageCannotSubmit(page: AdminProductAddPage)
    requires page.formData == InitialFormData()
    ensures page.SubmitDisabled()
  {
    InitialFormIsInvalid();
  }
}
