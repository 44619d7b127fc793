/** The avatar form (components/AvatarGenerator.tsx): the uploaded photo, the chosen style,
    and the request to turn the photo into an avatar. */
module AvatarGeneratorForm {
  import opened Outcomes
  import opened Types
  import GeminiService

  const NoPhotoMessage: string := "Please upload an image first."

  /** The arguments of `onAvatarGenerated`: the generated avatar first, the original second. */
  datatype Handoff = Handoff(avatar: string, original: string)

  class AvatarGenerator {
    var imageFile: bool           // a file has been chosen
    var imageBase64: Option<string>
    var style: AvatarStyle
    var isLoading: bool
    var error: Option<string>

    constructor ()
      ensures style == AvatarStyles[0] && style == Hyperrealistic
      ensures !imageFile && imageBase64 == None && !isLoading && error == None
    {
      imageFile := false;
      imageBase64 := None;
      style := AvatarStyles[0];
      isLoading := false;
      error := None;
    }

    /** `handleFileChange` with its read completed. `None` is a cancelled picker. The reader
        fires `onloadend` after an error too, with a null result. */
    method SelectFile(chosen: Option<ReadOutcome>)
      modifies this
      ensures chosen.None? ==> imageFile == old(imageFile) && imageBase64 == old(imageBase64)
      ensures chosen == Some(ReadFailed) ==> imageFile && imageBase64 == None
      ensures chosen.Some? && chosen.value.Loaded? ==> imageFile && imageBase64 == Some(chosen.value.dataUrl)
      ensures style == old(style) && isLoading == old(isLoading) && error == old(error)
    {
      if chosen.Some? {
        imageFile := true;
        match chosen.value {
          case Loaded(url) => imageBase64 := Some(url);
          case ReadFailed => imageBase64 := None;
        }
      }
    }

    /** A style button. */
    method ChooseStyle(s: AvatarStyle)
      modifies this
      ensures style == s
      ensures imageFile == old(imageFile) && imageBase64 == old(imageBase64)
      ensures isLoading == old(isLoading) && error == old(error)
    {
      style := s;
    }

    /** `handleSubmit` up to the remote call: without a photo the error is set and nothing
        is sent; otherwise loading is switched on and any previous error cleared. The photo
        to send is returned. */
    method BeginSubmit() returns (photo: Option<string>)
      modifies this
      ensures !Present(old(imageBase64)) ==>
        photo == None && error == Some(NoPhotoMessage) && isLoading == old(isLoading)
      ensures Present(old(imageBase64)) ==>
        photo == old(imageBase64) && isLoading && error == None
      ensures imageFile == old(imageFile) && imageBase64 == old(imageBase64) && style == old(style)
    {
      if !Present(imageBase64) {
        error := Some(NoPhotoMessage);
        return None;
      }
      isLoading := true;
      error := None;
      return imageBase64;
    }

    /** `handleSubmit` after the remote call: on success the parent is handed the avatar and
        the unchanged original; on failure only the error is shown. Loading ends either way. */
    method FinishSubmit(photo: string, outcome: Result<string>) returns (handoff: Option<Handoff>)
      modifies this
      ensures outcome.Ok? ==> handoff == Some(Handoff(outcome.value, photo)) && error == old(error)
      ensures outcome.Err? ==> handoff == None && error == Some(DisplayMessage(outcome.error))
      ensures !isLoading
      ensures imageFile == old(imageFile) && imageBase64 == old(imageBase64) && style == old(style)
    {
      match outcome {
        case Ok(avatar) => handoff := Some(Handoff(avatar, photo));
        case Err(e) =>
          handoff := None;
          error := Some(DisplayMessage(e));
      }
      isLoading := false;
    }

    /** `handleSubmit`: the whole handler, the remote call given as an oracle. */
    method Submit(oracle: GeminiService.Oracle) returns (handoff: Option<Handoff>)
      modifies this
      ensures !Present(old(imageBase64)) ==>
        handoff == None && error == Some(NoPhotoMessage) && isLoading == old(isLoading)
      ensures Present(old(imageBase64)) ==>
        var outcome := GeminiService.AvatarOutcome(old(imageBase64).value, old(style), oracle);
        !isLoading
        && (outcome.Ok? ==> handoff == Some(Handoff(outcome.value, old(imageBase64).value)) && error == None)
        && (outcome.Err? ==> handoff == None && error == Some(DisplayMessage(outcome.error)))
      ensures handoff.Some? ==> handoff.value.avatar != "" && handoff.value.original != ""
      ensures imageFile == old(imageFile) && imageBase64 == old(imageBase64) && style == old(style)
    {
      var photo := BeginSubmit();
      if photo.None? {
        return None;
      }
      var outcome := GeminiService.GenerateAvatar(photo.value, style, oracle);
      handoff := FinishSubmit(photo.value, outcome);
    }
  }
}
