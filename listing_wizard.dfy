/** The three-step listing wizard of the create-listing page: per-step
    validation, the step counter, the tag list with case-insensitive
    de-duplication, the five-image cap, the condition toggle, and the record
    that is submitted. */
module ListingWizard {
  import opened Text

  /** STEPS.length */
  const StepCount: int := 3
  /** The picker's limit on existing plus new images. */
  const MaxImages: int := 5

  const TitleRequired: string := "Title is required"
  const DescriptionRequired: string := "Description is required"
  const PhotoRequired: string := "At least one photo is required"
  const CategoryRequired: string := "Please select a category"
  const PriceRequired: string := "Price is required"
  const DuplicateTag: string := "This tag already exists"
  const OfferNotFound: string := "Offer not found or you don't have permission to edit it"

  // ---------------------------------------------------------------------------
  // Price validity

  predicate IsDigit(c: char) {
    '0' <= c <= '9'
  }

  predicate AllDigits(s: string) {
    forall i :: 0 <= i < |s| ==> IsDigit(s[i])
  }

  /** The digits of an unsigned decimal literal: `ddd`, `ddd.ddd`, `.ddd` or `ddd.`. */
  predicate IsUnsignedDecimal(s: string) {
    && exists k :: 0 <= k <= |s| && UnsignedSplit(s, k)
  }

  /** `s` is `s[..k]` digits, then optionally a point and more digits, with at least one digit. */
  predicate UnsignedSplit(s: string, k: int) {
    && 0 <= k <= |s|
    && AllDigits(s[..k])
    && (k == |s| || (s[k] == '.' && AllDigits(s[k + 1..])))
    && |s| > (if k < |s| then 1 else 0)
  }

  /** A decimal literal with an optional leading minus, the form a number
      input's value takes (exponents are not modelled). */
  predicate IsDecimal(s: string) {
    if |s| > 0 && s[0] == '-' then IsUnsignedDecimal(s[1..]) else IsUnsignedDecimal(s)
  }

  predicate NoNonZeroDigit(s: string) {
    forall i :: 0 <= i < |s| ==> s[i] == '0' || s[i] == '.' || s[i] == '-'
  }

  /** `Number(price) <= 0`: a decimal literal that is negative or zero. Any
      other text converts to NaN, and NaN compares false. */
  predicate NumberAtMostZero(s: string) {
    IsDecimal(s) && ((|s| > 0 && s[0] == '-') || NoNonZeroDigit(s))
  }

  /** `!price || Number(price) <= 0` */
  predicate PriceMissing(price: string) {
    price == "" || NumberAtMostZero(price)
  }

  /** A literal with a non-zero digit and no minus sign is a positive price;
      text that is not a number is not caught by the check. */
  lemma PriceExamples()
    ensures !PriceMissing("2500") && !PriceMissing("0.5")
    ensures PriceMissing("") && PriceMissing("0") && PriceMissing("-3") && PriceMissing("0.00")
    ensures !PriceMissing("abc")
  {
    assert UnsignedSplit("2500", 4) && "2500"[0] == '2';
    assert UnsignedSplit("0.5", 1) && "0.5"[2] == '5';
    assert UnsignedSplit("0", 1);
    assert "-3"[1..] == "3" && UnsignedSplit("3", 1);
    assert UnsignedSplit("0.00", 1);
    forall k | 0 <= k <= 3 ensures !UnsignedSplit("abc", k) {
      if k > 0 { assert "abc"[..k][0] == 'a'; }
    }
  }

  // ---------------------------------------------------------------------------
  // Validation

  /** The fields `validateStep` reads. */
  datatype Draft = Draft(title: string, description: string, totalImages: int, category: string, price: string)

  /** The error messages `validateStep` collects for a step, in push order.
      A text field fails when it is blank, which is when its `trim()` is
      empty (the contract of `Trim`). */
  function StepErrors(step: int, d: Draft): seq<string> {
    if step == 1 then
      (if IsBlank(d.title) then [TitleRequired] else [])
      + (if IsBlank(d.description) then [DescriptionRequired] else [])
    else if step == 2 then
      (if d.totalImages == 0 then [PhotoRequired] else [])
      + (if d.category == "" then [CategoryRequired] else [])
      + (if PriceMissing(d.price) then [PriceRequired] else [])
    else []
  }

  /** What each step asks of the draft, stated directly. */
  predicate StepComplete(step: int, d: Draft) {
    match step
    case 1 => !IsBlank(d.title) && !IsBlank(d.description)
    case 2 => d.totalImages != 0 && d.category != "" && !PriceMissing(d.price)
    case _ => true
  }

  /** `validateStep` passes exactly when the step's requirements hold; each
      message is reported exactly when its field fails. */
  lemma StepErrorsExact(step: int, d: Draft)
    ensures StepErrors(step, d) == [] <==> StepComplete(step, d)
    ensures step == 1 ==> (TitleRequired in StepErrors(step, d) <==> IsBlank(d.title))
    ensures step == 1 ==> (DescriptionRequired in StepErrors(step, d) <==> IsBlank(d.description))
    ensures step == 2 ==> (PhotoRequired in StepErrors(step, d) <==> d.totalImages == 0)
    ensures step == 2 ==> (CategoryRequired in StepErrors(step, d) <==> d.category == "")
    ensures step == 2 ==> (PriceRequired in StepErrors(step, d) <==> PriceMissing(d.price))
    ensures step != 1 && step != 2 ==> StepErrors(step, d) == []
  {
    MessagesDistinct();
    if step == 1 {
      DetailsStepErrors(d);
    } else if step == 2 {
      PhotosStepErrors(d);
    }
  }

  lemma MessagesDistinct()
    ensures TitleRequired != DescriptionRequired
    ensures PhotoRequired != CategoryRequired && PhotoRequired != PriceRequired && CategoryRequired != PriceRequired
  {
    assert TitleRequired[0] != DescriptionRequired[0];
    assert PhotoRequired[0] != CategoryRequired[0] && PhotoRequired[1] != PriceRequired[1];
    assert CategoryRequired[1] != PriceRequired[1];
  }

  lemma DetailsStepErrors(d: Draft)
    requires TitleRequired != DescriptionRequired
    ensures StepErrors(1, d) == [] <==> StepComplete(1, d)
    ensures TitleRequired in StepErrors(1, d) <==> IsBlank(d.title)
    ensures DescriptionRequired in StepErrors(1, d) <==> IsBlank(d.description)
  {
    TwoChecks(TitleRequired, DescriptionRequired, IsBlank(d.title), IsBlank(d.description));
  }

  lemma PhotosStepErrors(d: Draft)
    requires PhotoRequired != CategoryRequired && PhotoRequired != PriceRequired && CategoryRequired != PriceRequired
    ensures StepErrors(2, d) == [] <==> StepComplete(2, d)
    ensures PhotoRequired in StepErrors(2, d) <==> d.totalImages == 0
    ensures CategoryRequired in StepErrors(2, d) <==> d.category == ""
    ensures PriceRequired in StepErrors(2, d) <==> PriceMissing(d.price)
  {
    ThreeChecks(PhotoRequired, CategoryRequired, PriceRequired, d.totalImages == 0, d.category == "", PriceMissing(d.price));
  }

  /** Messages pushed under two independent conditions. */
  lemma TwoChecks(a: string, b: string, p: bool, q: bool)
    requires a != b
    ensures var e := (if p then [a] else []) + (if q then [b] else []);
      && (e == [] <==> !p && !q) && (a in e <==> p) && (b in e <==> q)
  {
  }

  /** Messages pushed under three independent conditions. */
  lemma ThreeChecks(a: string, b: string, c: string, p: bool, q: bool, r: bool)
    requires a != b && a != c && b != c
    ensures var e := (if p then [a] else []) + (if q then [b] else []) + (if r then [c] else []);
      && (e == [] <==> !p && !q && !r) && (a in e <==> p) && (b in e <==> q) && (c in e <==> r)
  {
    var e1, e2, e3 := (if p then [a] else []), (if q then [b] else []), (if r then [c] else []);
    assert forall x :: x in e1 + e2 + e3 <==> x in e1 || x in e2 || x in e3;
  }

  /** A blank title is reported before a blank description. */
  lemma TitleBeforeDescription(d: Draft)
    requires IsBlank(d.title) && IsBlank(d.description)
    ensures StepErrors(1, d) == [TitleRequired, DescriptionRequired]
  {
  }

  // ---------------------------------------------------------------------------
  // Lists

  /** An image file chosen in the picker (only its identity matters here). */
  datatype ImageFile = ImageFile(name: string)

  /** `Array.from(files).slice(0, n)` for n >= 0. */
  function TakeAtMost<T>(s: seq<T>, n: nat): (r: seq<T>)
    ensures |r| == if |s| < n then |s| else n
    ensures r == s[..|r|]
  {
    if |s| <= n then s else s[..n]
  }

  /** `s.filter((_, i) => i !== index)` */
  function RemoveAt<T>(s: seq<T>, index: int): (r: seq<T>)
    ensures 0 <= index < |s| ==> |r| == |s| - 1 && r[..index] == s[..index] && r[index..] == s[index + 1..]
    ensures !(0 <= index < |s|) ==> r == s
  {
    if 0 <= index < |s| then s[..index] + s[index + 1..] else s
  }

  /** The offer as loaded for editing. */
  datatype ExistingOffer = ExistingOffer(
    title: string, description: string, price: string, categoryId: string,
    condition: Option<string>, tags: Option<seq<string>>, images: Option<seq<string>>)

  /** The record sent to the offers table. */
  datatype ListingData = ListingData(
    sellerId: string, title: string, description: string, categoryId: string,
    offerType: string, price: string, condition: Option<string>, tags: seq<string>,
    images: seq<string>, status: string)

  /** How a submission ended. */
  datatype SubmitResult =
    | Ignored                                       // mobile before the last step
    | NotLoggedIn
    | Failed(message: string)
    | Saved(listing: ListingData, updated: bool, navigateTo: string)

  /** The error toast of a failed submission, naming the mode. */
  function FailureMessage(editing: bool): string {
    "Failed to " + (if editing then "update" else "create") + " listing. Please try again"
  }

  /** The `images` column: the kept URLs, then the new uploads. */
  function SubmittedImages(existing: seq<string>, uploaded: seq<string>): (r: seq<string>)
    ensures |r| == |existing| + |uploaded|
    ensures r[..|existing|] == existing && r[|existing|..] == uploaded
  {
    existing + uploaded
  }

  /** The condition buttons: clicking the selected option clears it, any other selects it. */
  function Toggled(current: string, clicked: string): (r: string)
    ensures current == clicked ==> r == ""
    ensures current != clicked ==> r == clicked
  {
    if current == clicked then "" else clicked
  }

  /** Clicking the same option twice leaves no condition chosen, whatever
      was chosen before, unless that option was already chosen. */
  lemma ToggleTwice(current: string, clicked: string)
    ensures current != clicked ==> Toggled(Toggled(current, clicked), clicked) == ""
    ensures current == clicked ==> Toggled(Toggled(current, clicked), clicked) == clicked
  {
  }

  datatype TextField = TitleField | DescriptionField | PriceField | CategoryField | NewTagField

  class CreateListing {
    const offerId: Option<string>
    var title: string
    var description: string
    var selectedCategory: string
    var tags: seq<string>
    var newTag: string
    var price: string
    var condition: string
    var images: seq<ImageFile>
    var existingImageUrls: seq<string>
    var tagError: Option<string>
    var isSubmitting: bool
    var isLoadingExisting: bool
    var step: int
    var direction: int
    var stepErrors: seq<string>

    /** The wizard shows one of its three steps. */
    ghost predicate Valid()
      reads this
    {
      1 <= step <= StepCount
    }

    function TotalImages(): int
      reads this
    {
      |existingImageUrls| + |images|
    }

    function Snapshot(): Draft
      reads this
    {
      Draft(title, description, TotalImages(), selectedCategory, price)
    }

    constructor (offerId: Option<string>)
      ensures Valid() && step == 1 && this.offerId == offerId
      ensures title == "" && description == "" && selectedCategory == "" && price == "" && condition == ""
      ensures tags == [] && newTag == "" && images == [] && existingImageUrls == [] && tagError.None?
      ensures !isSubmitting && !isLoadingExisting && stepErrors == []
    {
      this.offerId := offerId;
      title, description, selectedCategory, price, condition := "", "", "", "", "";
      tags, newTag, images, existingImageUrls, tagError := [], "", [], [], None;
      isSubmitting, isLoadingExisting := false, false;
      step, direction, stepErrors := 1, 1, [];
    }

    /** A text input's `onChange` (and the category select). */
    method Edit(field: TextField, value: string)
      modifies this`title, this`description, this`price, this`selectedCategory, this`newTag
      ensures title == (if field == TitleField then value else old(title))
      ensures description == (if field == DescriptionField then value else old(description))
      ensures price == (if field == PriceField then value else old(price))
      ensures selectedCategory == (if field == CategoryField then value else old(selectedCategory))
      ensures newTag == (if field == NewTagField then value else old(newTag))
    {
      match field
      case TitleField => title := value;
      case DescriptionField => description := value;
      case PriceField => price := value;
      case CategoryField => selectedCategory := value;
      case NewTagField => newTag := value;
    }

    /** Edit mode: the offer's fetch has started. */
    method StartLoadingExisting()
      modifies this`isLoadingExisting
      ensures isLoadingExisting
    {
      isLoadingExisting := true;
    }

    /** Edit mode: the offer came back; its fields replace the form's. */
    method LoadedExisting(offer: ExistingOffer)
      modifies this`title, this`description, this`price, this`selectedCategory, this`condition,
        this`tags, this`existingImageUrls, this`isLoadingExisting
      ensures title == offer.title && description == offer.description && price == offer.price
      ensures selectedCategory == offer.categoryId
      ensures condition == (if offer.condition.Some? then offer.condition.value else "")
      ensures tags == (if offer.tags.Some? then offer.tags.value else [])
      ensures existingImageUrls == (if offer.images.Some? then offer.images.value else [])
      ensures !isLoadingExisting
    {
      title := offer.title;
      description := offer.description;
      price := offer.price;
      selectedCategory := offer.categoryId;
      condition := if offer.condition.Some? then offer.condition.value else "";
      tags := if offer.tags.Some? then offer.tags.value else [];
      existingImageUrls := if offer.images.Some? then offer.images.value else [];
      isLoadingExisting := false;
    }

    /** Edit mode: the offer's fetch failed or found nothing. The page shows
        the not-found toast and navigates home; the form, and the loading
        flag that was set, stay as they are. */
    method LoadFailed() returns (toast: string, navigateTo: string)
      ensures toast == OfferNotFound && navigateTo == "/"
    {
      toast, navigateTo := OfferNotFound, "/";
    }

    /** `validateStep`: collect the step's error messages and report whether there were none. */
    method ValidateStep(stepNumber: int) returns (ok: bool)
      modifies this`stepErrors
      ensures stepErrors == StepErrors(stepNumber, Snapshot())
      ensures ok <==> StepComplete(stepNumber, Snapshot())
    {
      var errs: seq<string> := [];
      if stepNumber == 1 {
        if Trim(title) == "" { errs := errs + [TitleRequired]; }
        if Trim(description) == "" { errs := errs + [DescriptionRequired]; }
      } else if stepNumber == 2 {
        if TotalImages() == 0 { errs := errs + [PhotoRequired]; }
        if selectedCategory == "" { errs := errs + [CategoryRequired]; }
        if price == "" || NumberAtMostZero(price) { errs := errs + [PriceRequired]; }
      }
      assert errs == StepErrors(stepNumber, Snapshot());
      stepErrors := errs;
      StepErrorsExact(stepNumber, Snapshot());
      ok := |errs| == 0;
    }

    /** `handleNext`, wired to the Continue button only before the last step:
        the step advances by one exactly when it validates. */
    method Next()
      requires Valid() && step < StepCount
      modifies this`stepErrors, this`direction, this`step
      ensures Valid()
      ensures step == (if StepComplete(old(step), Snapshot()) then old(step) + 1 else old(step))
      ensures step == old(step) ==> stepErrors == StepErrors(step, Snapshot()) && direction == old(direction)
      ensures step != old(step) ==> stepErrors == [] && direction == 1
    {
      var ok := ValidateStep(step);
      if ok {
        stepErrors := [];
        direction := 1;
        step := step + 1;
      }
    }

    /** `handleBack`, shown only after the first step. */
    method Back()
      requires Valid() && step > 1
      modifies this`stepErrors, this`direction, this`step
      ensures Valid()
      ensures step == old(step) - 1 && stepErrors == [] && direction == -1
    {
      stepErrors := [];
      direction := -1;
      step := step - 1;
    }

    /** Every entry of `after` that is not in `before` holds something. */
    static predicate AddsNoBlank(before: seq<string>, after: seq<string>) {
      forall t :: t in after && t !in before ==> !IsBlank(t)
    }

    /** Appending a trimmed, non-blank tag that is not yet present keeps the
        list duplicate-free and brings in no blank entry. */
    static lemma AppendTagKeeps(tags: seq<string>, candidate: string)
      requires candidate != [] && !IsSpace(candidate[0])
      requires !ContainsIgnoringCase(tags, candidate)
      ensures DistinctIgnoringCase(tags) ==> DistinctIgnoringCase(tags + [candidate])
      ensures AddsNoBlank(tags, tags + [candidate])
    {
      if DistinctIgnoringCase(tags) {
        AppendKeepsDistinct(tags, candidate);
      }
      assert forall t :: t in tags + [candidate] && t !in tags ==> t == candidate;
    }

    /** `handleAddTag`: on Enter with a non-blank input, a case-insensitive
        duplicate only sets the error; otherwise the trimmed tag is appended
        and the input and the error are cleared. */
    method AddTag(key: string)
      modifies this`tags, this`newTag, this`tagError
      ensures key != "Enter" || IsBlank(old(newTag)) ==> tags == old(tags) && newTag == old(newTag) && tagError == old(tagError)
      ensures key == "Enter" && !IsBlank(old(newTag)) && ContainsIgnoringCase(old(tags), Trim(old(newTag))) ==>
        tags == old(tags) && newTag == old(newTag) && tagError == Some(DuplicateTag)
      ensures key == "Enter" && !IsBlank(old(newTag)) && !ContainsIgnoringCase(old(tags), Trim(old(newTag))) ==>
        tags == old(tags) + [Trim(old(newTag))] && newTag == "" && tagError.None?
      ensures DistinctIgnoringCase(old(tags)) ==> DistinctIgnoringCase(tags)
      ensures AddsNoBlank(old(tags), tags)
    {
      if key == "Enter" && Trim(newTag) != "" {
        var candidate := Trim(newTag);
        if ContainsIgnoringCase(tags, candidate) {
          tagError := Some(DuplicateTag);
          return;
        }
        AppendTagKeeps(tags, candidate);
        tags := tags + [candidate];
        newTag := "";
        tagError := None;
      }
    }

    /** A tag's remove button: every entry equal to it goes, the rest stay in order. */
    method RemoveTag(tag: string)
      modifies this`tags
      ensures tags == RemoveAll(old(tags), tag)
      ensures DistinctIgnoringCase(old(tags)) ==> DistinctIgnoringCase(tags)
    {
      if DistinctIgnoringCase(tags) {
        RemoveAllKeepsDistinct(tags, tag);
      }
      tags := RemoveAll(tags, tag);
    }

    /** `handleImageUpload`, reachable only through the picker, which is shown
        while fewer than five images are attached: at most the remaining
        number of new files is appended, in order. */
    method UploadImages(files: Option<seq<ImageFile>>)
      requires TotalImages() < MaxImages
      modifies this`images
      ensures TotalImages() <= MaxImages
      ensures files.None? ==> images == old(images)
      ensures files.Some? ==> images == old(images) + TakeAtMost(files.value, MaxImages - old(TotalImages()))
    {
      if files.Some? {
        var remaining := MaxImages - TotalImages();
        images := images + TakeAtMost(files.value, remaining);
      }
    }

    /** The remove button on an already uploaded image. */
    method RemoveExistingImage(index: int)
      modifies this`existingImageUrls
      ensures existingImageUrls == RemoveAt(old(existingImageUrls), index)
      ensures TotalImages() <= old(TotalImages())
    {
      existingImageUrls := RemoveAt(existingImageUrls, index);
    }

    /** The remove button on a newly chosen image. */
    method RemoveNewImage(index: int)
      modifies this`images
      ensures images == RemoveAt(old(images), index)
      ensures TotalImages() <= old(TotalImages())
    {
      images := RemoveAt(images, index);
    }

    /** A condition button. */
    method ToggleCondition(value: string)
      modifies this`condition
      ensures condition == Toggled(old(condition), value)
    {
      condition := if condition == value then "" else value;
    }

    /** The desktop submit button, and the mobile one on the last step. */
    /** The submit button is enabled exactly when nothing is in flight and
        the photo requirement of the second step is met. */
    function SubmitDisabled(): (r: bool)
      reads this
      ensures !r <==> !isSubmitting && !isLoadingExisting && PhotoRequired !in StepErrors(2, Snapshot())
    {
      MessagesDistinct();
      PhotosStepErrors(Snapshot());
      isSubmitting || isLoadingExisting || TotalImages() == 0
    }

    /** `isEditMode = Boolean(offerId)`: an empty `oid` means create mode. */
    predicate IsEditMode() {
      offerId.Some? && offerId.value != ""
    }

    /** `listingData`, built from the form and the URLs of the new uploads. */
    function Listing(sellerId: string, newImageUrls: seq<string>): (r: ListingData)
      reads this
      ensures r.images == SubmittedImages(existingImageUrls, newImageUrls)
      ensures r.condition == OrNone(condition)
      ensures r.tags == tags && r.title == title && r.categoryId == selectedCategory
      ensures r.sellerId == sellerId && r.description == description && r.price == price
      ensures r.offerType == "product" && r.status == "active"
    {
      ListingData(sellerId, title, description, selectedCategory, "product", price,
        OrNone(condition), tags, existingImageUrls + newImageUrls, "active")
    }

    /** `handleSubmit` as one event. On mobile before the last step nothing
        happens; otherwise the submission ends with `isSubmitting` false.
        `user` is the signed-in user's id, `uploads` the public URLs of the
        new images (None when an upload failed), `stored` the id the insert
        or update returned (None when it failed). An update is issued in
        edit mode and an insert otherwise; the failure toast names the mode. */
    method Submit(isMobile: bool, user: Option<string>, uploads: Option<seq<string>>, stored: Option<string>)
      returns (result: SubmitResult)
      modifies this`isSubmitting
      ensures isMobile && step < StepCount ==> result == Ignored && isSubmitting == old(isSubmitting)
      ensures !(isMobile && step < StepCount) ==> !isSubmitting
      ensures !(isMobile && step < StepCount) && user.None? ==> result == NotLoggedIn
      ensures !(isMobile && step < StepCount) && user.Some? ==>
        (result.Saved? <==> (images != [] ==> uploads.Some?) && stored.Some?)
      ensures !(isMobile && step < StepCount) && user.Some? && !result.Saved? ==>
        result == Failed(FailureMessage(IsEditMode()))
      ensures result.Saved? ==>
        && user.Some? && stored.Some? && result.updated == IsEditMode()
        && (images != [] ==> uploads.Some? && result.listing == Listing(user.value, uploads.value))
        && (images == [] ==> result.listing == Listing(user.value, []))
        && result.navigateTo == "/view/listing/" + stored.value
    {
      if isMobile && step < StepCount {
        return Ignored;
      }
      isSubmitting := true;
      if user.None? {
        result := NotLoggedIn;
      } else {
        var newImageUrls: seq<string> := [];
        var uploadFailed := false;
        if |images| > 0 {
          if uploads.Some? {
            newImageUrls := uploads.value;
          } else {
            uploadFailed := true;
          }
        }
        if uploadFailed || stored.None? {
          result := Failed(FailureMessage(IsEditMode()));
        } else {
          var listing := Listing(user.value, newImageUrls);
          result := Saved(listing, IsEditMode(), "/view/listing/" + stored.value);
        }
      }
      isSubmitting := false;
    }
  }
}
