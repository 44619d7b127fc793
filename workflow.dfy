/** The workflow controller (App.tsx): which page is shown, the studio's tab, the active
    avatar and original photo, and the gallery of saved try-ons. Each handler is a method
    that updates these fields as the corresponding React setters do. */
module Workflow {
  import opened Outcomes
  import opened Types
  import GeminiService
  import AvatarGeneratorForm
  import TryOnStudioForm

  /** What `renderStep` produces. `Blank` is the `null` that `renderStudio` returns after it
      has started over. */
  datatype Screen =
    | LandingPage
    | AvatarGeneratorPage
    | StudioPage(avatar: string, tab: StudioTab, galleryCount: nat)
    | Blank

  /** The gallery read at start-up: the stored list, or the empty list when nothing is
      stored or it could not be read. */
  function LoadedGallery(stored: Option<seq<TryOnResult>>): (g: seq<TryOnResult>)
    ensures stored.None? ==> g == []
    ensures stored.Some? ==> g == stored.value
  {
    match stored
    case None => []
    case Some(saved) => saved
  }

  class App {
    var step: Step
    var studioTab: StudioTab
    var userImage: Option<string>
    var avatarImage: Option<string>
    var gallery: seq<TryOnResult>

    /** The studio is only ever shown with both images present. */
    ghost predicate StudioReady()
      reads this
    {
      step == Studio ==> Present(avatarImage) && Present(userImage)
    }

    constructor (stored: Option<seq<TryOnResult>>)
      ensures step == Landing && studioTab == TryOnTab
      ensures userImage == None && avatarImage == None
      ensures gallery == LoadedGallery(stored)
      ensures StudioReady()
    {
      step := Landing;
      studioTab := TryOnTab;
      userImage := None;
      avatarImage := None;
      gallery := LoadedGallery(stored);
    }

    /** `handleStart` */
    method Start()
      modifies this
      ensures step == AvatarGeneratorStep
      ensures studioTab == old(studioTab) && userImage == old(userImage)
      ensures avatarImage == old(avatarImage) && gallery == old(gallery)
      ensures StudioReady()
    {
      step := AvatarGeneratorStep;
    }

    /** `handleAvatarGenerated` */
    method AvatarGenerated(avatar: string, original: string)
      modifies this
      ensures avatarImage == Some(avatar) && userImage == Some(original)
      ensures step == Studio && studioTab == TryOnTab
      ensures gallery == old(gallery)
      ensures avatar != "" && original != "" ==> StudioReady()
    {
      avatarImage := Some(avatar);
      userImage := Some(original);
      step := Studio;
      studioTab := TryOnTab;
    }

    /** `handleStartOver`: both images are dropped; the gallery is kept. */
    method StartOver()
      modifies this
      ensures step == Landing && userImage == None && avatarImage == None
      ensures studioTab == old(studioTab) && gallery == old(gallery)
      ensures StudioReady()
    {
      userImage := None;
      avatarImage := None;
      step := Landing;
    }

    /** `handleSaveToGallery`: the newest result goes first. */
    method SaveToGallery(result: TryOnResult)
      modifies this
      ensures gallery == [result] + old(gallery)
      ensures |gallery| == |old(gallery)| + 1 && gallery[0] == result
      ensures step == old(step) && studioTab == old(studioTab)
      ensures userImage == old(userImage) && avatarImage == old(avatarImage)
      ensures old(StudioReady()) ==> StudioReady()
    {
      gallery := [result] + gallery;
    }

    /** "Create a New Avatar": back to the avatar form, the images are kept. */
    method CreateNewAvatar()
      modifies this
      ensures step == AvatarGeneratorStep
      ensures studioTab == old(studioTab) && userImage == old(userImage)
      ensures avatarImage == old(avatarImage) && gallery == old(gallery)
      ensures StudioReady()
    {
      step := AvatarGeneratorStep;
    }

    /** The two tab buttons, and the gallery's back action (`SwitchTab(TryOnTab)`). */
    method SwitchTab(tab: StudioTab)
      modifies this
      ensures studioTab == tab
      ensures step == old(step) && userImage == old(userImage)
      ensures avatarImage == old(avatarImage) && gallery == old(gallery)
      ensures old(StudioReady()) ==> StudioReady()
    {
      studioTab := tab;
    }

    /** `renderStep`, with the guard of `renderStudio`: showing the studio without both
        images starts over instead. */
    method Render() returns (screen: Screen)
      modifies this
      ensures old(step) == Landing || old(step) == GalleryStep ==> screen == LandingPage
      ensures old(step) == AvatarGeneratorStep ==> screen == AvatarGeneratorPage
      ensures old(step) == Studio && Present(old(avatarImage)) && Present(old(userImage))
        ==> screen == StudioPage(old(avatarImage).value, old(studioTab), |old(gallery)|)
      ensures old(step) == Studio && !(Present(old(avatarImage)) && Present(old(userImage)))
        ==> screen == Blank && step == Landing && userImage == None && avatarImage == None
      ensures screen != Blank ==> step == old(step) && userImage == old(userImage) && avatarImage == old(avatarImage)
      ensures studioTab == old(studioTab) && gallery == old(gallery)
      ensures old(StudioReady()) ==> screen != Blank
      ensures StudioReady()
    {
      match step
      case Landing => screen := LandingPage;
      case AvatarGeneratorStep => screen := AvatarGeneratorPage;
      case Studio =>
        if !Present(avatarImage) || !Present(userImage) {
          StartOver();
          screen := Blank;
        } else {
          screen := StudioPage(avatarImage.value, studioTab, |gallery|);
        }
      case GalleryStep => screen := LandingPage;
    }

    /** The avatar form as App mounts it, `onAvatarGenerated={handleAvatarGenerated}`:
        a submit that hands off an avatar enters the studio with both images present. */
    method SubmitAvatarForm(form: AvatarGeneratorForm.AvatarGenerator, oracle: GeminiService.Oracle)
      returns (handoff: Option<AvatarGeneratorForm.Handoff>)
      modifies this, form
      ensures handoff.Some? ==>
        step == Studio && studioTab == TryOnTab
        && avatarImage == Some(handoff.value.avatar) && userImage == Some(handoff.value.original)
      ensures handoff.None? ==>
        step == old(step) && studioTab == old(studioTab)
        && userImage == old(userImage) && avatarImage == old(avatarImage)
      ensures handoff.Some? ==> StudioReady()
      ensures gallery == old(gallery)
      ensures old(StudioReady()) ==> StudioReady()
      ensures !Present(old(form.imageBase64)) ==>
        handoff.None? && form.error == Some(AvatarGeneratorForm.NoPhotoMessage)
        && form.isLoading == old(form.isLoading)
      ensures Present(old(form.imageBase64)) ==>
        var outcome := GeminiService.AvatarOutcome(old(form.imageBase64).value, old(form.style), oracle);
        !form.isLoading
        && (outcome.Ok? ==>
              handoff == Some(AvatarGeneratorForm.Handoff(outcome.value, old(form.imageBase64).value))
              && form.error == None && step == Studio && studioTab == TryOnTab
              && avatarImage == Some(outcome.value) && userImage == old(form.imageBase64))
        && (outcome.Err? ==> handoff == None && form.error == Some(DisplayMessage(outcome.error)))
      ensures form.imageFile == old(form.imageFile) && form.imageBase64 == old(form.imageBase64)
      ensures form.style == old(form.style)
    {
      handoff := form.Submit(oracle);
      if handoff.Some? {
        AvatarGenerated(handoff.value.avatar, handoff.value.original);
      }
    }

    /** The studio's save button as App wires it, `onSaveToGallery={handleSaveToGallery}`:
        the gallery gains the current result at its head, or is unchanged without one. */
    method SaveFromStudio(studio: TryOnStudioForm.TryOnStudio, id: string, timestamp: string)
      modifies this
      ensures Present(studio.finalImage) ==>
        gallery == [TryOnResult(id, studio.finalImage.value, studio.avatarImage, studio.clothingImages,
                                studio.clothingDetails, studio.measurements, timestamp)] + old(gallery)
      ensures !Present(studio.finalImage) ==> gallery == old(gallery)
      ensures step == old(step) && studioTab == old(studioTab)
      ensures userImage == old(userImage) && avatarImage == old(avatarImage)
      ensures old(StudioReady()) ==> StudioReady()
    {
      var saved := studio.Save(id, timestamp);
      if saved.Some? {
        SaveToGallery(saved.value);
      }
    }
  }
}
