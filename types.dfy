/** The record types and the fixed list of avatar styles shared by the whole application. */
module Types {

  /** The page the application shows. `GalleryStep` is vestigial: the gallery is now a
      tab of the studio, and no transition produces this value. */
  datatype Step = Landing | AvatarGeneratorStep | Studio | GalleryStep

  /** The two tabs of the studio page. */
  datatype StudioTab = TryOnTab | GalleryTab

  datatype AvatarStyle = Hyperrealistic | Anime | Cartoon | PixelArt | SciFi

  /** The styles in the order the avatar form lists them; the first is the default. */
  const AvatarStyles: seq<AvatarStyle> := [Hyperrealistic, Anime, Cartoon, PixelArt, SciFi]

  /** The style's name as the source spells it, and as it is embedded in a prompt. */
  function StyleName(s: AvatarStyle): string {
    match s
    case Hyperrealistic => "Hyperrealistic"
    case Anime => "Anime"
    case Cartoon => "Cartoon"
    case PixelArt => "Pixel Art"
    case SciFi => "Sci-Fi"
  }

  /** Every style appears in the list exactly once, and distinct styles have distinct names. */
  lemma StylesListedOnceWithDistinctNames(a: AvatarStyle, b: AvatarStyle)
    ensures a in AvatarStyles
    ensures multiset(AvatarStyles)[a] == 1
    ensures StyleName(a) == StyleName(b) ==> a == b
  {
  }

  /** The body measurements form; each field is the text typed into a numeric input. */
  datatype Measurements = Measurements(height: string, weight: string, chest: string, waist: string, hips: string)

  const EmptyMeasurements: Measurements := Measurements("", "", "", "", "")

  datatype ClothingDetails = ClothingDetails(itemType: string, material: string, fit: string, description: string)

  const EmptyDetails: ClothingDetails := ClothingDetails("", "", "", "")

  /** A saved try-on. `id` and `timestamp` come from the clock and are supplied by the caller. */
  datatype TryOnResult = TryOnResult(
    id: string,
    finalImage: string,
    avatarImage: string,
    clothingImages: seq<string>,
    clothingDetails: ClothingDetails,
    measurements: Measurements,
    timestamp: string)

  /** The completed read of one selected file: a data URL, or a read error. */
  datatype ReadOutcome = Loaded(dataUrl: string) | ReadFailed
}
