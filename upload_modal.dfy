/** The upload dialog's metadata generation (components/UploadModal.tsx). */
module UploadModal {

  const EmptyPromptError: string := "Please enter a video idea or prompt."
  const GenerationFailedError: string := "Failed to generate metadata. Please try again."

  /** How the external `generateVideoMetadata` call ended. */
  datatype MetadataOutcome = Generated(title: string, description: string) | GenerationFailed

  /** The generate button as rendered. */
  datatype GenerateButton = GenerateButton(disabled: bool, caption: string)

  class UploadForm {
    var prompt: string
    var title: string
    var description: string
    var isLoading: bool
    var error: string

    /** While a call is outstanding no error is shown. */
    ghost predicate Valid()
      reads this
    {
      isLoading ==> error == ""
    }

    constructor ()
      ensures Valid()
      ensures prompt == "" && title == "" && description == "" && !isLoading && error == ""
    {
      prompt, title, description := "", "", "";
      isLoading := false;
      error := "";
    }

    /** The text fields' change handlers. */
    method EditPrompt(text: string)
      requires Valid()
      modifies this`prompt
      ensures Valid() && prompt == text
    {
      prompt := text;
    }

    method EditTitle(text: string)
      requires Valid()
      modifies this`title
      ensures Valid() && title == text
    {
      title := text;
    }

    method EditDescription(text: string)
      requires Valid()
      modifies this`description
      ensures Valid() && description == text
    {
      description := text;
    }

    /** `handleGenerate` up to its `await`: an empty prompt sets the error and
      * stops; otherwise loading starts, the error is cleared and the service is
      * called with the prompt. Only the empty string is rejected. */
    method StartGenerate() returns (called: bool)
      requires Valid() && !isLoading
      modifies this`isLoading, this`error
      ensures Valid()
      ensures called <==> prompt != ""
      ensures !called ==> error == EmptyPromptError && !isLoading
      ensures called ==> isLoading && error == ""
    {
      if prompt == "" {
        error := EmptyPromptError;
        return false;
      }
      isLoading := true;
      error := "";
      called := true;
    }

    /** `handleGenerate` after its `await`: the try, catch and finally blocks. */
    method FinishGenerate(outcome: MetadataOutcome)
      requires Valid() && isLoading
      modifies this`title, this`description, this`error, this`isLoading
      ensures Valid() && !isLoading
      ensures outcome.Generated? ==>
        title == outcome.title && description == outcome.description && error == old(error)
      ensures outcome.GenerationFailed? ==>
        title == old(title) && description == old(description) && error == GenerationFailedError
    {
      match outcome {
        case Generated(t, d) =>
          title := t;
          description := d;
        case GenerationFailed =>
          error := GenerationFailedError;
      }
      isLoading := false;
    }

    /** The whole of `handleGenerate` when the call's outcome is `outcome`. */
    method HandleGenerate(outcome: MetadataOutcome) returns (called: bool)
      requires Valid() && !isLoading
      modifies this`title, this`description, this`error, this`isLoading
      ensures Valid() && !isLoading
      ensures called <==> prompt != ""
      ensures !called ==> error == EmptyPromptError && title == old(title) && description == old(description)
      ensures called && outcome.Generated? ==>
        title == outcome.title && description == outcome.description && error == ""
      ensures called && outcome.GenerationFailed? ==>
        title == old(title) && description == old(description) && error == GenerationFailedError
    {
      called := StartGenerate();
      if called {
        FinishGenerate(outcome);
      }
    }

    /** Disabled and captioned "Generating..." exactly while loading. */
    function Button(): (b: GenerateButton)
      reads this
      ensures b.disabled <==> isLoading
      ensures b.caption == "Generating..." <==> isLoading
    {
      GenerateButton(isLoading, if isLoading then "Generating..." else "Generate with AI")
    }
  }
}
