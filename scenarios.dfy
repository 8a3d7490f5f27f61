/**
 * Client methods that replay concrete interactions with the page, using only
 * the contracts of the components.
 */
module Scenarios {
  import opened Common
  import Listing
  import Page
  import Upload

  /** Mounting the listing issues exactly one list request, for page 1 of the whole listing. */
  method MountListing() returns (listing: Listing.FileListing)
  {
    listing := new Listing.FileListing();
    var rows := [Listing.FileRecord("a.pdf", 2.5, 1690000000000)];
    listing.RunEffects(false, Listing.Fetched(rows, 1, 1), Listing.FetchFailed);
    assert listing.requests == [Listing.ListFiles("", 10, 1, 7)];
    assert listing.files == rows && listing.totalPages == 1 && listing.error == "";
    // Both pagination buttons are disabled on the only page.
    assert listing.PaginationShown();
    assert Listing.PrevDisabled(listing.currentPage) && Listing.NextDisabled(listing.currentPage, listing.totalPages);
  }

  /** Asking to delete a.pdf and then b.pdf leaves only b.pdf awaiting confirmation; a 200 returns to idle and refetches. */
  method DeleteFlow(listing: Listing.FileListing)
    modifies listing
  {
    listing.HandleDeleteConfirmation("a.pdf");
    listing.HandleDeleteConfirmation("b.pdf");
    assert listing.confirmDelete == Some("b.pdf");
    ghost var before := listing.requests;
    listing.HandleDelete("b.pdf", Listing.Responded(200), Listing.FetchFailed);
    assert listing.confirmDelete == None && listing.deleting == None;
    assert listing.requests[|before|] == Listing.DeleteFile("b.pdf");
    assert listing.requests[|before| + 1].ListFiles?;
    assert listing.toasts[|listing.toasts| - 1] == ToastSuccess(Listing.DeletedMessage);
  }

  /** Searching from page 3 goes back to page 1 and the next commit fetches; Clear Search keeps the page. */
  method SearchFlow(listing: Listing.FileListing)
    modifies listing
  {
    listing.HandlePageChange(3);
    listing.RunEffects(false, Listing.FetchFailed, Listing.FetchFailed);
    listing.HandleSearchChange("report");
    assert listing.currentPage == 1;
    ghost var before := listing.requests;
    listing.RunEffects(false, Listing.FetchFailed, Listing.FetchFailed);
    assert listing.requests == before + [Listing.ListFiles("report", listing.size.Megabytes(), 1, 7)];
    listing.HandlePageChange(2);
    listing.ClearSearch();
    assert listing.currentPage == 2 && listing.filename == "";
  }

  /** A server rejection with body "File too large" is shown verbatim; the selection stays for a retry. */
  method RejectedUpload()
  {
    var home := new Page.Home();
    var uploader := new Upload.FileUpload(home);
    var pdf := Upload.File("big.pdf", "application/pdf", 50000000);
    uploader.HandleFileChange([pdf]);
    assert uploader.files == [pdf];
    uploader.HandleUpload([Upload.ProgressEvent(10, 40)], Upload.UploadFailed(Some("File too large")));
    assert uploader.toasts == [ToastError("File too large")];
    assert uploader.files == [pdf] && !uploader.isUploading && uploader.uploadProgress == 25;
    assert !home.reload;
  }

  /** Two successful uploads: the flag goes true once and the listing's reload effect fetches once. */
  method TwoUploads()
  {
    var home := new Page.Home();
    var uploader := new Upload.FileUpload(home);
    var pdf := Upload.File("a.pdf", "application/pdf", 1000);
    uploader.HandleFileChange([pdf]);
    uploader.HandleUpload([], Upload.Uploaded);
    assert uploader.files == [] && uploader.success == Upload.UploadedMessage;
    var mixed := [pdf, Upload.File("notes.txt", "text/plain", 10)];
    assert !Upload.IsPdf(mixed[1]);
    uploader.HandleFileChange(mixed);
    assert uploader.files == [] && uploader.error == Upload.OnlyPdfMessage;
    uploader.HandleUpload([], Upload.Uploaded);
    assert uploader.error == Upload.NoSelectionMessage;
    uploader.HandleFileChange([pdf]);
    uploader.HandleUpload([], Upload.Uploaded);
    assert home.history == [false, true, true];
    Page.OnlyFirstReloadRefetches(home);
    assert Listing.ReloadFetchCount(None, home.history) == 1;
    // A mounted listing rendered with each of those flag values refetches once.
    var listing := new Listing.FileListing();
    listing.RunEffects(false, Listing.FetchFailed, Listing.FetchFailed);
    Listing.ReloadFetchesOnce(Some(false), home.history);
    ghost var before := |listing.requests|;
    Listing.ReplayReload(listing, [false, true, true], Listing.FetchFailed);
    assert |listing.requests| == before + 1;
  }
}
