/**
  The generation form: the prompt, the selected source file, the aspect ratio,
  and the three fields `handleGenerate` steps through Idle -> Generating ->
  {image | error}.
*/
module Generator {

  import opened Wrappers
  import opened Types
  import opened JsString
  import opened Gemini

  const EmptyInputMessage := "Please provide a prompt or upload an image."
  const ImageTypePrefix := "image/"

  /** A user-chosen file: its MIME type and what reading it as a data URL yields. */
  datatype File = File(mimeType: string, read: ReadOutcome)

  class ImageGenerator {
    /** The `activeModel` prop: the caller may pass a new one on any render, and the form state survives it. */
    var activeModel: AIModel
    var prompt: string
    var selectedFile: Option<File>
    var aspectRatio: AspectRatio
    var isGenerating: bool
    var generatedImage: Option<string>
    var error: Option<string>

    /** Idle, empty, Portrait. */
    constructor (activeModel: AIModel)
      ensures this.activeModel == activeModel
      ensures prompt == "" && selectedFile == None && aspectRatio == Portrait
      ensures !isGenerating && generatedImage == None && error == None
    {
      this.activeModel := activeModel;
      prompt := "";
      selectedFile := None;
      aspectRatio := Portrait;
      isGenerating := false;
      generatedImage := None;
      error := None;
    }

    /** A re-render with a new `activeModel` prop: only the model changes; the prompt, file, ratio and outcome stay. */
    method SetActiveModel(m: AIModel)
      modifies this
      ensures activeModel == m
      ensures prompt == old(prompt) && selectedFile == old(selectedFile) && aspectRatio == old(aspectRatio)
      ensures isGenerating == old(isGenerating) && generatedImage == old(generatedImage) && error == old(error)
    {
      activeModel := m;
    }

    /** The file picker: the first chosen file, if any, becomes the selection. */
    method HandleFileChange(files: seq<File>)
      modifies this
      ensures selectedFile == if files != [] then Some(files[0]) else old(selectedFile)
      ensures prompt == old(prompt) && aspectRatio == old(aspectRatio) && activeModel == old(activeModel)
      ensures isGenerating == old(isGenerating) && generatedImage == old(generatedImage) && error == old(error)
    {
      if files != [] {
        selectedFile := Some(files[0]);
      }
    }

    /** A drop: the first dropped file is taken only when its type starts with "image/". */
    method HandleDrop(files: seq<File>)
      modifies this
      ensures files != [] && StartsWith(files[0].mimeType, ImageTypePrefix) ==> selectedFile == Some(files[0])
      ensures !(files != [] && StartsWith(files[0].mimeType, ImageTypePrefix)) ==> selectedFile == old(selectedFile)
      ensures prompt == old(prompt) && aspectRatio == old(aspectRatio) && activeModel == old(activeModel)
      ensures isGenerating == old(isGenerating) && generatedImage == old(generatedImage) && error == old(error)
    {
      if files != [] && StartsWith(files[0].mimeType, ImageTypePrefix) {
        selectedFile := Some(files[0]);
      }
    }

    /**
      The gate and the start of a generation: with neither a prompt nor a file
      only the error is set; otherwise the form enters Generating with the error
      and the previous image cleared.
    */
    method BeginGenerate() returns (started: bool)
      modifies this
      ensures started <==> !(old(prompt) == "" && old(selectedFile).None?)
      ensures !started ==>
        error == Some(EmptyInputMessage) && isGenerating == old(isGenerating) && generatedImage == old(generatedImage)
      ensures started ==> isGenerating && error == None && generatedImage == None
      ensures prompt == old(prompt) && selectedFile == old(selectedFile) && aspectRatio == old(aspectRatio)
      ensures activeModel == old(activeModel)
    {
      if prompt == "" && selectedFile.None? {
        error := Some(EmptyInputMessage);
        return false;
      }
      isGenerating := true;
      error := None;
      generatedImage := None;
      return true;
    }

    /**
      `handleGenerate`. After the gate, the selected file (if any) is read; the
      request carries the prompt, the file's data and type, the current ratio and
      the active model; the generation's image or error message lands in the
      matching field; and `isGenerating` always ends false. `request` is the
      request built, `None` when the gate or the file read stopped it first.
    */
    method HandleGenerate(provider: ProviderCall -> ProviderReply) returns (request: Option<GenerationRequest>)
      modifies this
      ensures prompt == old(prompt) && selectedFile == old(selectedFile) && aspectRatio == old(aspectRatio)
      ensures activeModel == old(activeModel)
      ensures old(prompt) == "" && old(selectedFile).None? ==>
        && request == None && error == Some(EmptyInputMessage)
        && isGenerating == old(isGenerating) && generatedImage == old(generatedImage)
      ensures !(old(prompt) == "" && old(selectedFile).None?) ==> !isGenerating
      ensures old(selectedFile).Some? && FileToBase64(old(selectedFile).value.read).Rejected? ==>
        && request == None && generatedImage == None
        && error == FileToBase64(old(selectedFile).value.read).message
      ensures request.Some? ==>
        && request.value.prompt == old(prompt)
        && request.value.aspectRatio == old(aspectRatio)
        && request.value.model == old(activeModel)
        && (old(selectedFile).None? ==> request.value.sourceImageBase64 == None && request.value.sourceImageMimeType == None)
        && (old(selectedFile).Some? ==>
              && request.value.sourceImageMimeType == Some(old(selectedFile).value.mimeType)
              && Resolved(request.value.sourceImageBase64) == FileToBase64(old(selectedFile).value.read))
      ensures request.Some? ==>
        match Generation(request.value, provider)
        case Ok(uri) => generatedImage == Some(uri) && error == None
        case Err(m) => error == Some(m) && generatedImage == None
      ensures request.None? ==> !(old(prompt) == "" && old(selectedFile).None?) ==>
        old(selectedFile).Some? && FileToBase64(old(selectedFile).value.read).Rejected?
    {
      var started := BeginGenerate();
      if !started {
        return None;
      }
      var base64Image: Option<string> := None;
      var mimeType: Option<string> := None;
      if selectedFile.Some? {
        var settled := FileToBase64(selectedFile.value.read);
        match settled
        case Rejected(m) =>
          error := m;
          isGenerating := false;
          return None;
        case Resolved(data) =>
          base64Image := data;
          mimeType := Some(selectedFile.value.mimeType);
      }
      var req := GenerationRequest(prompt, base64Image, mimeType, aspectRatio, activeModel);
      request := Some(req);
      var call, result := GenerateImage(req, provider);
      if result.Ok? {
        generatedImage := Some(result.value);
      } else {
        error := Some(result.message);
      }
      isGenerating := false;
    }
  }

  /**
    The empty-input check exists only in the form: the pipeline itself accepts an
    empty prompt without an image and sends the stock instruction as the only part.
  */
  lemma EmptyPromptReachesPipeline(request: GenerationRequest)
    requires request.prompt == "" && request.sourceImageBase64.None?
    ensures ProviderCallFor(request).parts == [TextPart(DefaultPrompt)]
  {
  }
}
