/** The admin products page, which now only edits: the edit sheet's form,
    the id of the product being edited, and the image picker's state. */
module AdminProducts {
  import opened Catalog
  import opened ProductForm
  import opened ImageUpload
  import AdminProductTile

  /** The update the Save button sends: the edited id and the submission data. */
  datatype EditRequest = EditProduct(id: string, formData: FormData)

  class AdminProductsPage {
    var openEditProductsDialog: bool
    var formData: FormData
    var currentEditedId: Option<string>
    const upload: ImageUploadState

    constructor ()
      ensures !openEditProductsDialog && formData == InitialFormData() && currentEditedId.None?
      ensures fresh(upload) && upload.imageFiles == [] && upload.uploadedImageUrls == [] && !upload.imageLoadingState
    {
      openEditProductsDialog := false;
      formData := InitialFormData();
      currentEditedId := None;
      upload := new ImageUploadState();
    }

    /** Save is disabled while the form is invalid or images are uploading. */
    predicate SaveDisabled()
      reads this, upload
    {
      !IsFormValid(formData) || upload.imageLoadingState
    }

    /** The tile's Edit button: open the sheet on the product's form. */
    method HandleEdit(p: Product)
      modifies this
      ensures openEditProductsDialog && currentEditedId == Some(p.id)
      ensures formData == AdminProductTile.EditFormData(p)
    {
      openEditProductsDialog := true;
      currentEditedId := Some(p.id);
      formData := AdminProductTile.EditFormData(p);
    }

    /** Closing the sheet: back to the initial form with no edited product
        and both image lists empty. */
    method CloseSheet()
      modifies this, upload
      ensures !openEditProductsDialog && currentEditedId.None? && formData == InitialFormData()
      ensures upload.imageFiles == [] && upload.uploadedImageUrls == []
      ensures upload.imageLoadingState == old(upload.imageLoadingState)
    {
      openEditProductsDialog := false;
      currentEditedId := None;
      formData := InitialFormData();
      upload.imageFiles := [];
      upload.uploadedImageUrls := [];
    }

    /** Save: nothing is sent without an edited product; otherwise the
        submission data goes out under the edited id, and a successful update
        resets the sheet as closing it does. A failure leaves everything. */
    method OnSubmit(succeeded: bool) returns (request: Option<EditRequest>)
      modifies this, upload
      ensures old(currentEditedId).None? ==> request.None?
      ensures old(currentEditedId).Some? ==>
                request == Some(EditProduct(old(currentEditedId).value,
                                            SubmissionData(old(formData), old(upload.uploadedImageUrls))))
      ensures request.Some? && succeeded ==>
                !openEditProductsDialog && currentEditedId.None? && formData == InitialFormData() &&
                upload.imageFiles == [] && upload.uploadedImageUrls == []
      ensures !(request.Some? && succeeded) ==>
                openEditProductsDialog == old(openEditProductsDialog) && currentEditedId == old(currentEditedId) &&
                formData == old(formData) && upload.imageFiles == old(upload.imageFiles) &&
                upload.uploadedImageUrls == old(upload.uploadedImageUrls)
      ensures upload.imageLoadingState == old(upload.imageLoadingState)
    {
      var submissionData := SubmissionData(formData, upload.uploadedImageUrls);
      if currentEditedId.None? {
        request := None;
        return;
      }
      request := Some(EditProduct(currentEditedId.value, submissionData));
      if succeeded {
        formData := InitialFormData();
        openEditProductsDialog := false;
        currentEditedId := None;
        upload.imageFiles := [];
        upload.uploadedImageUrls := [];
      }
    }
  }

  /** After a successful save or a close the sheet's Save is disabled again,
      because the initial form is invalid. */
  lemma ResetSheetCannotSave(page: AdminProductsPage)
    requires page.formData == InitialFormData()
    ensures page.SaveDisabled()
  {
    InitialFormIsInvalid();
  }
}
