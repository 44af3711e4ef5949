/** The vendor's product table: the thumbnail and digital-file checks run
    when a file is picked, the checks `handleSave` runs before any upload,
    the product status label and badge, and the page/filter state that
    decides which slice of products is requested. */
module ProductsTable {
  import opened Common
  import opened JsNumbers
  import Paging

  /** What the browser reports about a picked file. */
  datatype FileInfo = FileInfo(name: string, mimeType: string, size: nat)

  const MiB: nat := 1024 * 1024
  const ThumbnailMaxSize: nat := 2 * MiB
  const DigitalFileMaxSize: nat := 2000 * MiB
  const SaveMaxFileSize: nat := 100 * MiB

  const ThumbnailTypes: seq<string> := ["image/jpeg", "image/png", "image/webp"]
  const DigitalFileTypes: seq<string> :=
    ["application/pdf", "audio/mp3", "video/mp4", "application/zip", "application/x-zip-compressed"]

  const ImageTypeMessage := "Only JPG, PNG, and WebP images are allowed"
  const ImageSizeMessage := "Image must be smaller than 2MB"
  const UnsupportedFileMessage := "Unsupported file type"
  const FileTooLargeMessage := "File size exceeds 2GB limit"
  const RequiredFieldsMessage := "Please fill all required fields"
  const PriceMessage := "Price must be a positive number"
  const ComparePriceMessage := "Compare price must be greater than regular price"
  const SaveSizeMessage := "File size exceeds 100MB limit"

  // ---------------------------------------------------------------- thumbnail

  /** `validateImage`: the type is checked first, then the 2 MiB bound (inclusive). */
  function ValidateImage(f: FileInfo): (r: Outcome)
    ensures r.Pass? <==>
      (f.mimeType == "image/jpeg" || f.mimeType == "image/png" || f.mimeType == "image/webp")
      && f.size <= 2097152
    ensures f.mimeType !in ThumbnailTypes ==> r == Fail(ImageTypeMessage)
    ensures f.mimeType in ThumbnailTypes && f.size > 2097152 ==> r == Fail(ImageSizeMessage)
  {
    if f.mimeType !in ThumbnailTypes then Fail(ImageTypeMessage)
    else if f.size > ThumbnailMaxSize then Fail(ImageSizeMessage)
    else Pass
  }

  /** A 3 MiB PNG is refused for its size; a 1 MiB WebP and a PNG of exactly 2 MiB are taken. */
  lemma ThumbnailExamples()
    ensures ValidateImage(FileInfo("a.png", "image/png", 3 * MiB)) == Fail(ImageSizeMessage)
    ensures ValidateImage(FileInfo("a.webp", "image/webp", MiB)) == Pass
    ensures ValidateImage(FileInfo("a.png", "image/png", 2 * MiB)) == Pass
    ensures ValidateImage(FileInfo("a.gif", "image/gif", 3 * MiB)) == Fail(ImageTypeMessage)
  {
  }

  // ---------------------------------------------------------------- digital file

  /** `name.split(".").pop().toLowerCase()`: the text after the last dot,
      lower-cased; the whole name when it has no dot. */
  function FileExtension(name: string): (ext: string)
    ensures '.' !in ext
    ensures forall i :: 0 <= i < |ext| ==> !IsUpper(ext[i])
  {
    var last := Last(Split(name, '.'));
    assert '.' !in last;
    ToLower(last)
  }

  /** The extension is the lower-cased text after the last dot. */
  lemma FileExtensionAfterLastDot(stem: string, ext: string)
    requires '.' !in ext
    ensures FileExtension(stem + "." + ext) == ToLower(ext)
  {
    SplitAppendPiece(stem, ext, '.');
  }

  /** The check in `handleFileChange`. A `.zip` extension lets an unlisted
      type past the first test, but the second type test refuses it anyway,
      so only the message (size or type) depends on the name. */
  function ValidateDigitalFile(f: FileInfo): (r: Outcome)
    ensures r.Pass? <==> f.mimeType in DigitalFileTypes && f.size <= DigitalFileMaxSize
    ensures r.Fail? ==> r.message == UnsupportedFileMessage || r.message == FileTooLargeMessage
    ensures r == Fail(FileTooLargeMessage) <==>
      f.size > DigitalFileMaxSize && (f.mimeType in DigitalFileTypes || FileExtension(f.name) == "zip")
  {
    var listed := f.mimeType in DigitalFileTypes;
    if !listed && FileExtension(f.name) != "zip" then Fail(UnsupportedFileMessage)
    else if f.size > DigitalFileMaxSize then Fail(FileTooLargeMessage)
    else if !listed then Fail(UnsupportedFileMessage)
    else Pass
  }

  /** Whether a file is accepted never depends on its name. */
  lemma DigitalFileVerdictIgnoresName(f: FileInfo, otherName: string)
    ensures ValidateDigitalFile(f).Pass? == ValidateDigitalFile(f.(name := otherName)).Pass?
  {
  }

  // ---------------------------------------------------------------- save

  /** The rules `handleSave` enforces before uploading, stated on the values
      the fields denote (`Number` of each price text). */
  predicate SaveRulesHold(name: string, price: string, categoryId: string, compareAt: string, file: Option<FileInfo>)
  {
    && name != [] && price != [] && categoryId != [] && file.Some?
    && ToNumber(price).Some? && ToNumber(price).value > 0.0
    && (compareAt != [] ==> ToNumber(compareAt).Some? && ToNumber(compareAt).value > ToNumber(price).value)
    && file.value.size <= SaveMaxFileSize
  }

  /** The checks of `handleSave`, first failure wins, with JavaScript's
      `isNaN` and `parseFloat` and its NaN comparisons. */
  function SaveCheck(name: string, price: string, categoryId: string, compareAt: string, file: Option<FileInfo>): (r: Outcome)
    ensures r.Pass? <==> SaveRulesHold(name, price, categoryId, compareAt, file)
    ensures r.Pass? || r == Fail(RequiredFieldsMessage) || r == Fail(PriceMessage)
      || r == Fail(ComparePriceMessage) || r == Fail(SaveSizeMessage)
    ensures r == Fail(RequiredFieldsMessage) <==> name == [] || price == [] || categoryId == [] || file.None?
    ensures r == Fail(PriceMessage) <==>
      name != [] && price != [] && categoryId != [] && file.Some?
      && (ToNumber(price).None? || ToNumber(price).value <= 0.0)
    ensures r == Fail(ComparePriceMessage) <==>
      name != [] && price != [] && categoryId != [] && file.Some?
      && ToNumber(price).Some? && ToNumber(price).value > 0.0
      && compareAt != [] && (ToNumber(compareAt).None? || ToNumber(compareAt).value <= ToNumber(price).value)
    ensures r == Fail(SaveSizeMessage) <==>
      name != [] && price != [] && categoryId != [] && file.Some?
      && ToNumber(price).Some? && ToNumber(price).value > 0.0
      && (compareAt != [] ==> ToNumber(compareAt).Some? && ToNumber(compareAt).value > ToNumber(price).value)
      && file.value.size > SaveMaxFileSize
  {
    if name == [] || price == [] || categoryId == [] || file.None? then
      Fail(RequiredFieldsMessage)
    else if ToNumber(price).None? || Le(ParseFloat(price), Some(0.0)) then
      Fail(PriceMessage)
    else if compareAt != [] && (ToNumber(compareAt).None? || Le(ParseFloat(compareAt), ParseFloat(price))) then
      Fail(ComparePriceMessage)
    else if file.value.size > SaveMaxFileSize then
      Fail(SaveSizeMessage)
    else
      Pass
  }

  /** A compare-at price equal to the price is refused, and a file of exactly 100 MiB is accepted. */
  lemma SaveBoundaries(f: FileInfo)
    requires f.size == SaveMaxFileSize
    ensures SaveCheck("Song", "10", "3", "10", Some(f)) == Fail(ComparePriceMessage)
    ensures SaveCheck("Song", "10", "3", "", Some(f)) == Pass
    ensures SaveCheck("Song", "10", "3", "12.5", Some(f)) == Pass
    ensures SaveCheck("Song", "10", "3", "12.5", Some(f.(size := f.size + 1))) == Fail(SaveSizeMessage)
  {
    PriceTexts();
  }

  lemma PriceTexts()
    ensures ToNumber("10") == ParseFloat("10") == Some(10.0)
    ensures ToNumber("12.5") == ParseFloat("12.5") == Some(12.5)
  {
    TenText();
    ParseFloatAgreesWithNumber("10");
    TwelveAndAHalfText();
    ParseFloatAgreesWithNumber("12.5");
  }

  lemma TenText()
    ensures ToNumber("10") == Some(10.0)
  {
    NumberOfDigits("10");
    assert DigitsValue("10") == 10 by { assert "10"[..1] == "1" && "1"[..0] == []; }
  }

  lemma TwelveAndAHalfText()
    ensures ToNumber("12.5") == Some(12.5)
  {
    NumberOfDecimal("12", "5");
    assert "12" + "." + "5" == "12.5";
    TwelveAndAHalfValue();
  }

  lemma TwelveAndAHalfValue()
    ensures Value(Scanned(false, false, "12", true, "5", [])) == 12.5
  {
    assert DigitsValue("12") == 12 by { assert "12"[..1] == "1" && "1"[..0] == []; }
    assert DigitsValue("5") == 5 by { assert "5"[..0] == []; }
    assert Pow10(1) == 10;
  }

  // ---------------------------------------------------------------- status

  datatype ProductStatus = Published | Draft | Inactive

  /** `getStatusText`. */
  function StatusText(isPublished: bool, isActive: bool): (s: ProductStatus)
    ensures s == Published <==> isPublished && isActive
    ensures s == Draft <==> !isPublished && isActive
    ensures s == Inactive <==> !isActive
  {
    if isPublished && isActive then Published
    else if !isPublished && isActive then Draft
    else Inactive
  }

  /** `getStatusColor`, which the table calls with `is_published && is_active`. */
  function StatusColor(isPublished: bool): (b: Badge)
    ensures b == Success <==> isPublished
    ensures b == Warning <==> !isPublished
  {
    if isPublished then Success else Warning
  }

  /** The badge drawn beside the label: green exactly for a published product,
      amber for drafts and inactive products alike. */
  function StatusBadge(isPublished: bool, isActive: bool): (b: Badge)
    ensures b == Success <==> StatusText(isPublished, isActive) == Published
    ensures b == Warning <==> StatusText(isPublished, isActive) != Published
  {
    StatusColor(isPublished && isActive)
  }

  // ---------------------------------------------------------------- listing request

  /** The query string of the products request. */
  datatype ProductsQuery = ProductsQuery(limit: nat, offset: int, search: Option<string>, status: Option<string>)

  /** `limit` and `offset` from the page; `search` only when non-empty;
      `status` only when it is not "all". */
  function ProductsRequest(currentPage: int, searchTerm: string, statusFilter: string): (q: ProductsQuery)
    ensures q.limit == 5 && q.offset == (currentPage - 1) * 5
    ensures q.search.Some? <==> searchTerm != []
    ensures q.search.Some? ==> q.search.value == searchTerm
    ensures q.status.Some? <==> statusFilter != "all"
    ensures q.status.Some? ==> q.status.value == statusFilter
  {
    ProductsQuery(
      Paging.ItemsPerPage,
      Paging.Offset(currentPage, Paging.ItemsPerPage),
      if searchTerm != [] then Some(searchTerm) else None,
      if statusFilter != "all" then Some(statusFilter) else None)
  }

  /** Twelve products make three pages. */
  lemma TwelveProductsThreePages()
    ensures Paging.TotalPages(12, Paging.ItemsPerPage) == 3
  {
  }

  // ---------------------------------------------------------------- component state

  class ProductsPage {
    var name: string
    var price: string
    var compareAtPrice: string
    var categoryId: string
    var file: Option<FileInfo>
    var fileUrl: string
    var uploadProgress: int
    var thumbnail: Option<FileInfo>
    var thumbnailUrl: string
    var thumbnailProgress: int
    /** `null` before anything was reported; `""` once cleared. */
    var errorAdding: Option<string>

    var currentPage: int
    var totalItems: nat
    var searchTerm: string
    var statusFilter: string

    constructor ()
      ensures name == [] && price == [] && compareAtPrice == [] && categoryId == []
      ensures file == None && thumbnail == None && errorAdding == None
      ensures fileUrl == [] && uploadProgress == 0 && thumbnailUrl == [] && thumbnailProgress == 0
      ensures currentPage == 1 && totalItems == 0 && searchTerm == [] && statusFilter == "all"
    {
      name, price, compareAtPrice, categoryId := [], [], [], [];
      file, fileUrl, uploadProgress := None, [], 0;
      thumbnail, thumbnailUrl, thumbnailProgress := None, [], 0;
      errorAdding := None;
      currentPage, totalItems, searchTerm, statusFilter := 1, 0, [], "all";
    }

    function TotalPages(): nat
      reads this
    {
      Paging.TotalPages(totalItems, Paging.ItemsPerPage)
    }

    /** The request `fetchProducts` sends for the current state. */
    function Request(): ProductsQuery
      reads this
    {
      ProductsRequest(currentPage, searchTerm, statusFilter)
    }

    /** `handleThumbnailChange`: a valid image replaces the thumbnail and
        clears the message; an invalid one leaves the thumbnail as it was,
        reports why, and asks for the file input to be cleared. */
    method HandleThumbnailChange(picked: Option<FileInfo>) returns (clearInput: bool)
      modifies this`thumbnail, this`thumbnailProgress, this`thumbnailUrl, this`errorAdding
      ensures picked.None? ==>
        !clearInput && thumbnail == old(thumbnail) && errorAdding == old(errorAdding)
        && thumbnailProgress == old(thumbnailProgress) && thumbnailUrl == old(thumbnailUrl)
      ensures picked.Some? && ValidateImage(picked.value).Pass? ==>
        !clearInput && thumbnail == picked && errorAdding == Some([])
        && thumbnailProgress == 0 && thumbnailUrl == []
      ensures picked.Some? && ValidateImage(picked.value).Fail? ==>
        clearInput && thumbnail == old(thumbnail) && errorAdding == Some(ValidateImage(picked.value).message)
        && thumbnailProgress == old(thumbnailProgress) && thumbnailUrl == old(thumbnailUrl)
    {
      clearInput := false;
      if picked.Some? {
        var verdict := ValidateImage(picked.value);
        if verdict.Pass? {
          thumbnail := picked;
          thumbnailProgress := 0;
          thumbnailUrl := [];
          errorAdding := Some([]);
        } else {
          errorAdding := Some(verdict.message);
          clearInput := true;
        }
      }
    }

    /** `handleFileChange`: an accepted file replaces `file` and resets its
        upload state; a refused one only sets the message. The handler reads
        `files[0].type` without a guard, so a pick with no file throws
        (`threw`) before any state changes. */
    method HandleFileChange(selected: Option<FileInfo>) returns (threw: bool)
      modifies this`file, this`fileUrl, this`uploadProgress, this`errorAdding
      ensures threw <==> selected.None?
      ensures selected.None? ==>
        file == old(file) && fileUrl == old(fileUrl) && uploadProgress == old(uploadProgress)
        && errorAdding == old(errorAdding)
      ensures selected.Some? && ValidateDigitalFile(selected.value).Pass? ==>
        file == selected && fileUrl == [] && uploadProgress == 0 && errorAdding == Some([])
      ensures selected.Some? && ValidateDigitalFile(selected.value).Fail? ==>
        file == old(file) && fileUrl == old(fileUrl) && uploadProgress == old(uploadProgress)
        && errorAdding == Some(ValidateDigitalFile(selected.value).message)
    {
      if selected.None? {
        return true;
      }
      threw := false;
      var verdict := ValidateDigitalFile(selected.value);
      if verdict.Fail? {
        errorAdding := Some(verdict.message);
        return;
      }
      file := selected;
      fileUrl := [];
      uploadProgress := 0;
      errorAdding := Some([]);
    }

    /** The part of `handleSave` before the upload: clears the message, then
        stops at the first failed rule. `proceeds` says whether the upload starts. */
    method HandleSave() returns (proceeds: bool)
      modifies this`errorAdding
      ensures proceeds <==> SaveRulesHold(name, price, categoryId, compareAtPrice, file)
      ensures proceeds ==> errorAdding == Some([])
      ensures !proceeds ==> errorAdding == Some(SaveCheck(name, price, categoryId, compareAtPrice, file).message)
    {
      errorAdding := Some([]);
      var verdict := SaveCheck(name, price, categoryId, compareAtPrice, file);
      if verdict.Fail? {
        errorAdding := Some(verdict.message);
        return false;
      }
      return true;
    }

    /** `goToPage`: pages outside `1..totalPages` are ignored. */
    method GoToPage(page: int)
      modifies this`currentPage
      ensures currentPage == if Paging.InRange(page, TotalPages()) then page else old(currentPage)
    {
      if Paging.InRange(page, TotalPages()) {
        currentPage := page;
      }
    }

    /** Choosing a status filter goes back to the first page. */
    method ChangeStatusFilter(value: string)
      modifies this`statusFilter, this`currentPage
      ensures statusFilter == value && currentPage == 1
    {
      statusFilter := value;
      currentPage := 1;
    }

    /** Typing in the search box changes the term but not the page. */
    method ChangeSearchTerm(value: string)
      modifies this`searchTerm
      ensures searchTerm == value
    {
      searchTerm := value;
    }

    /** Submitting the search form goes back to the first page. */
    method SubmitSearch()
      modifies this`currentPage
      ensures currentPage == 1
    {
      currentPage := 1;
    }
  }
}
