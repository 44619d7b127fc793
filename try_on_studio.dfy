/** The try-on form (components/TryOnStudio.tsx): up to four clothing images, the clothing
    details and body measurements, and the request to dress the avatar. Each handler is a
    method over the component's state fields. */
module TryOnStudioForm {
  import opened Outcomes
  import opened Types
  import GeminiService

  const MaxClothingImages: nat := 4

  const MaxReachedMessage: string := "You have already uploaded the maximum of 4 images."
  const ReadFailedMessage: string := "Could not read image files. Please try again."
  const MissingFieldsMessage: string :=
    "Please upload clothing images and fill in all required clothing and measurement fields."

  /** Decimal digits of a natural number. */
  function Decimal(n: nat): string
    decreases n
  {
    if n < 10 then ["0123456789"[n]] else Decimal(n / 10) + ["0123456789"[n % 10]]
  }

  /** `You can only add ${availableSlots} more image(s). ${filesToAdd.length} were added.` */
  function LimitMessage(slots: nat, added: nat): string {
    "You can only add " + Decimal(slots) + " more image(s). " + Decimal(added) + " were added."
  }

  // ---------------------------------------------------------------------------
  // Stored measurements

  /** What `localStorage` and `JSON.parse` give back under the measurements key. `Missing`
      covers an absent or empty entry, `Unreadable` a read or parse failure; a parsed object
      is given by its string-valued members. */
  datatype StoredValue =
    | Missing
    | Unreadable
    | JsonNull
    | JsonObject(members: map<string, string>)
    | JsonOther

  /** The value of a member, with an absent member read as the empty field it behaves as. */
  function Member(members: map<string, string>, key: string): string {
    if key in members then members[key] else ""
  }

  /** The measurements initialiser: a stored object with a `height` key is taken as it is;
      anything else gives five empty fields. */
  function InitialMeasurements(stored: StoredValue): (m: Measurements)
    ensures stored.JsonObject? && "height" in stored.members ==>
      m.height == stored.members["height"] &&
      m.weight == Member(stored.members, "weight") && m.chest == Member(stored.members, "chest") &&
      m.waist == Member(stored.members, "waist") && m.hips == Member(stored.members, "hips")
    ensures !(stored.JsonObject? && "height" in stored.members) ==> m == EmptyMeasurements
  {
    match stored
    case JsonObject(members) =>
      if "height" in members then
        Measurements(members["height"], Member(members, "weight"), Member(members, "chest"),
                     Member(members, "waist"), Member(members, "hips"))
      else EmptyMeasurements
    case _ => EmptyMeasurements
  }

  // ---------------------------------------------------------------------------
  // Form fields

  datatype MeasurementField = Height | Weight | Chest | Waist | Hips
  datatype DetailField = ItemType | Material | Fit | Description

  /** `{ ...prev, [name]: value }` on the measurements */
  function WithMeasurement(m: Measurements, field: MeasurementField, v: string): Measurements {
    match field
    case Height => m.(height := v)
    case Weight => m.(weight := v)
    case Chest => m.(chest := v)
    case Waist => m.(waist := v)
    case Hips => m.(hips := v)
  }

  /** `{ ...prev, [name]: value }` on the clothing details */
  function WithDetail(d: ClothingDetails, field: DetailField, v: string): ClothingDetails {
    match field
    case ItemType => d.(itemType := v)
    case Material => d.(material := v)
    case Fit => d.(fit := v)
    case Description => d.(description := v)
  }

  // ---------------------------------------------------------------------------
  // Image list helpers

  /** `images.filter((_, index) => index !== k)` */
  function WithoutIndex(images: seq<string>, k: int): (r: seq<string>)
    ensures |r| == if 0 <= k < |images| then |images| - 1 else |images|
  {
    if |images| == 0 then []
    else (if k == 0 then [] else [images[0]]) + WithoutIndex(images[1..], k - 1)
  }

  /** Removing index k deletes exactly that element and keeps the rest in order; an index
      out of range changes nothing. */
  lemma {:induction false} WithoutIndexRemovesOne(images: seq<string>, k: int)
    ensures 0 <= k < |images| ==> WithoutIndex(images, k) == images[..k] + images[k + 1..]
    ensures !(0 <= k < |images|) ==> WithoutIndex(images, k) == images
  {
    if |images| > 0 {
      var tail := WithoutIndex(images[1..], k - 1);
      WithoutIndexRemovesOne(images[1..], k - 1);
      if k == 0 {
        assert WithoutIndex(images, k) == [] + tail;
        assert tail == images[1..];
      } else if k < |images| && 0 < k {
        assert WithoutIndex(images, k) == [images[0]] + tail;
        assert tail == images[1..][..k - 1] + images[1..][k..];
        assert images[1..][..k - 1] == images[1..k];
        assert images[1..][k..] == images[k + 1..];
        assert [images[0]] + images[1..k] == images[..k];
      } else {
        assert WithoutIndex(images, k) == [images[0]] + tail;
        assert tail == images[1..];
        assert [images[0]] + images[1..] == images;
      }
    }
  }

  /** `Promise.all` over a batch that completed without error: the data URLs, in order. */
  function DataUrls(batch: seq<ReadOutcome>): seq<string>
    requires forall i :: 0 <= i < |batch| ==> batch[i].Loaded?
  {
    seq(|batch|, i requires 0 <= i < |batch| => batch[i].dataUrl)
  }

  class TryOnStudio {
    const avatarImage: string
    var clothingImages: seq<string>
    var clothingDetails: ClothingDetails
    var measurements: Measurements
    var isLoading: bool
    var error: Option<string>
    var finalImage: Option<string>

    /** The image list holds at most four images. */
    ghost predicate Valid()
      reads this
    {
      |clothingImages| <= MaxClothingImages
    }

    /** Every field a try-on needs: at least one image, height, weight, item type, fit and
        material. Chest, waist, hips and description are optional. */
    predicate ReadyToTryOn()
      reads this
    {
      |clothingImages| > 0 && measurements.height != "" && measurements.weight != ""
      && clothingDetails.itemType != "" && clothingDetails.fit != "" && clothingDetails.material != ""
    }

    constructor (avatar: string, stored: StoredValue)
      ensures avatarImage == avatar
      ensures clothingImages == [] && clothingDetails == EmptyDetails
      ensures measurements == InitialMeasurements(stored)
      ensures !isLoading && error == None && finalImage == None
      ensures Valid()
    {
      avatarImage := avatar;
      clothingImages := [];
      clothingDetails := EmptyDetails;
      measurements := InitialMeasurements(stored);
      isLoading := false;
      error := None;
      finalImage := None;
    }

    /** `handleInputChange`: the input named `field` now holds `v`. */
    method SetMeasurement(field: MeasurementField, v: string)
      modifies this
      ensures measurements == WithMeasurement(old(measurements), field, v)
      ensures clothingImages == old(clothingImages) && clothingDetails == old(clothingDetails)
      ensures isLoading == old(isLoading) && error == old(error) && finalImage == old(finalImage)
      ensures old(Valid()) ==> Valid()
    {
      measurements := WithMeasurement(measurements, field, v);
    }

    /** `handleDetailsChange`: the control named `field` now holds `v`. */
    method SetDetail(field: DetailField, v: string)
      modifies this
      ensures clothingDetails == WithDetail(old(clothingDetails), field, v)
      ensures clothingImages == old(clothingImages) && measurements == old(measurements)
      ensures isLoading == old(isLoading) && error == old(error) && finalImage == old(finalImage)
      ensures old(Valid()) ==> Valid()
    {
      clothingDetails := WithDetail(clothingDetails, field, v);
    }

    /** `handleFileChange` with its batch of reads completed: `selection` holds, in selection
        order, the outcome the read of each selected file would have. Only the files that fit
        in the free slots are read, and the batch is added whole or not at all. */
    method AddFiles(selection: seq<ReadOutcome>)
      modifies this
      ensures |selection| == 0 ==>
        clothingImages == old(clothingImages) && error == old(error)
      ensures |selection| > 0 && |old(clothingImages)| >= MaxClothingImages ==>
        clothingImages == old(clothingImages) && error == Some(MaxReachedMessage)
      ensures |selection| > 0 && |old(clothingImages)| < MaxClothingImages ==>
        var slots := MaxClothingImages - |old(clothingImages)|;
        var batch := if |selection| <= slots then selection else selection[..slots];
        if forall i :: 0 <= i < |batch| ==> batch[i].Loaded? then
          clothingImages == old(clothingImages) + DataUrls(batch)
          && error == (if |selection| > slots then Some(LimitMessage(slots, slots)) else None)
        else
          clothingImages == old(clothingImages) && error == Some(ReadFailedMessage)
      ensures clothingDetails == old(clothingDetails) && measurements == old(measurements)
      ensures isLoading == old(isLoading) && finalImage == old(finalImage)
      ensures old(Valid()) ==> Valid()
    {
      if |selection| == 0 {
        return;
      }
      var slots := MaxClothingImages - |clothingImages|;
      if slots <= 0 {
        error := Some(MaxReachedMessage);
        return;
      }
      var batch := if |selection| <= slots then selection else selection[..slots];
      if |selection| > |batch| {
        error := Some(LimitMessage(slots, |batch|));
      } else {
        error := None;
      }
      if forall i :: 0 <= i < |batch| ==> batch[i].Loaded? {
        clothingImages := clothingImages + DataUrls(batch);
      } else {
        error := Some(ReadFailedMessage);
      }
    }

    /** `removeClothingImage` */
    method RemoveClothingImage(index: int)
      modifies this
      ensures 0 <= index < |old(clothingImages)| ==>
        clothingImages == old(clothingImages)[..index] + old(clothingImages)[index + 1..]
      ensures !(0 <= index < |old(clothingImages)|) ==> clothingImages == old(clothingImages)
      ensures clothingDetails == old(clothingDetails) && measurements == old(measurements)
      ensures isLoading == old(isLoading) && error == old(error) && finalImage == old(finalImage)
      ensures old(Valid()) ==> Valid()
    {
      WithoutIndexRemovesOne(clothingImages, index);
      clothingImages := WithoutIndex(clothingImages, index);
    }

    /** `handleTryOn` up to the remote call: the guard, then loading on, error and previous
        result cleared. */
    method BeginTryOn() returns (started: bool)
      modifies this
      ensures started == old(ReadyToTryOn())
      ensures !started ==>
        error == Some(MissingFieldsMessage) && isLoading == old(isLoading) && finalImage == old(finalImage)
      ensures started ==> isLoading && error == None && finalImage == None
      ensures clothingImages == old(clothingImages) && clothingDetails == old(clothingDetails)
      ensures measurements == old(measurements)
      ensures old(Valid()) ==> Valid()
    {
      if !ReadyToTryOn() {
        error := Some(MissingFieldsMessage);
        return false;
      }
      isLoading := true;
      error := None;
      finalImage := None;
      return true;
    }

    /** `handleTryOn` after the remote call: the image or the error message is shown, and
        loading is switched off in every case. */
    method FinishTryOn(outcome: Result<string>)
      modifies this
      ensures outcome.Ok? ==> finalImage == Some(outcome.value) && error == old(error)
      ensures outcome.Err? ==> error == Some(DisplayMessage(outcome.error)) && finalImage == old(finalImage)
      ensures !isLoading
      ensures clothingImages == old(clothingImages) && clothingDetails == old(clothingDetails)
      ensures measurements == old(measurements)
      ensures old(Valid()) ==> Valid()
    {
      match outcome {
        case Ok(image) => finalImage := Some(image);
        case Err(e) => error := Some(DisplayMessage(e));
      }
      isLoading := false;
    }

    /** `handleTryOn`: the whole handler, the remote call given as an oracle. */
    method TryOn(oracle: GeminiService.Oracle)
      modifies this
      ensures !old(ReadyToTryOn()) ==>
        error == Some(MissingFieldsMessage) && isLoading == old(isLoading) && finalImage == old(finalImage)
      ensures old(ReadyToTryOn()) ==>
        var outcome := GeminiService.TryOnOutcome(avatarImage, clothingImages, clothingDetails, measurements, oracle);
        !isLoading
        && (outcome.Ok? ==> finalImage == Some(outcome.value) && error == None)
        && (outcome.Err? ==> finalImage == None && error == Some(DisplayMessage(outcome.error)))
      ensures clothingImages == old(clothingImages) && clothingDetails == old(clothingDetails)
      ensures measurements == old(measurements)
      ensures old(ReadyToTryOn()) && old(Valid()) ==> 1 <= |clothingImages| <= MaxClothingImages
      ensures old(Valid()) ==> Valid()
    {
      var started := BeginTryOn();
      if started {
        var outcome := GeminiService.PerformTryOn(avatarImage, clothingImages, clothingDetails, measurements, oracle);
        FinishTryOn(outcome);
      }
    }

    /** `handleSave`: the record handed to the gallery, or nothing without a result. The
        clock-derived `id` and `timestamp` are parameters. */
    method Save(id: string, timestamp: string) returns (saved: Option<TryOnResult>)
      ensures saved.None? <==> !Present(finalImage)
      ensures saved.Some? ==> saved.value == TryOnResult(id, finalImage.value, avatarImage, clothingImages,
                                                         clothingDetails, measurements, timestamp)
    {
      if Present(finalImage) {
        saved := Some(TryOnResult(id, finalImage.value, avatarImage, clothingImages,
                                  clothingDetails, measurements, timestamp));
      } else {
        saved := None;
      }
    }

    /** `handleClear` ("Start New"): images, details, result and error are reset; the
        measurements are kept. */
    method Clear()
      modifies this
      ensures clothingImages == [] && clothingDetails == EmptyDetails
      ensures finalImage == None && error == None
      ensures measurements == old(measurements) && isLoading == old(isLoading)
      ensures Valid()
    {
      clothingImages := [];
      clothingDetails := EmptyDetails;
      finalImage := None;
      error := None;
    }
  }
}
