/**
 * The export dialog's tabs (CSS, SCSS, JS and ShadCN) and the ShadCN tab's
 * generation state: the generated styles, the loading flag and the error.
 * Generation starts only when the LLM is configured, and the tab's text is
 * chosen from those three values in a fixed order of precedence.
 */
module ExportModalTabs {
  import opened Wrappers
  import opened Entities
  import opened AppContext
  import LlmEngine
  import ChatService
  import Text

  /** The tab ids, in order; the key of a tab is its position. */
  const TabIds: seq<string> := ["css", "scss", "js", "shadcn"]

  const NotConfiguredContent :=
    "To generate ShadCN styles, you need to enable and configure the external LLM in Assistant Settings.\n\n" +
    "Please go to the chat icon in the header, click the settings icon, and configure your LLM settings."
  const GeneratingContent := "Generating ShadCN styles..."
  const ErrorAdvice :=
    "\n\nMake sure you have enabled \"Use External LLM\" and configured the API endpoint and key in the Assistant Settings."
  const PlaceholderContent := "Click the \"Generate ShadCN Styles\" button to create styles."
  const FailurePrefix := "Failed to generate ShadCN styles: "

  /** A value held in a `null`-initialised state: truthy when present and not the empty text. */
  predicate Truthy(o: Option<string>) {
    o.Some? && o.value != ""
  }

  /**
   * `useLLM && llmConfig?.endpoint && llmConfig?.apiKey`. The tab's check
   * agrees with the chat: the LLM counts as configured exactly when the
   * settings make an LLM service that does not answer with the
   * not-configured text.
   */
  function IsLlmConfigured(useLLM: bool, config: LlmConfig): (configured: bool)
    ensures configured <==>
      var service := ChatService.CreateChatService(useLLM, config);
      service.LlmService? && LlmEngine.Configured(service.endpoint, service.apiKey)
  {
    useLLM && config.endpoint != "" && config.apiKey != ""
  }

  /** The ShadCN tab's text. */
  function ShadcnContent(configured: bool, loading: bool, error: Option<string>, styles: Option<string>): (content: string)
    ensures !configured ==> content == NotConfiguredContent
    ensures configured && loading ==> content == GeneratingContent
    ensures configured && !loading && Truthy(error) ==> Text.OccursAt(content, error.value, 7) && content[..7] == "Error: "
    ensures configured && !loading && !Truthy(error) && Truthy(styles) ==> content == styles.value
    ensures configured && !loading && !Truthy(error) && !Truthy(styles) ==> content == PlaceholderContent
  {
    if !configured then NotConfiguredContent
    else if loading then GeneratingContent
    else if Truthy(error) then "Error: " + error.value + ErrorAdvice
    else if Truthy(styles) then styles.value
    else PlaceholderContent
  }

  /**
   * The order of precedence: the configuration first, then loading, then an
   * error, then the styles. Each decides the text whatever the later ones
   * hold.
   */
  lemma ContentPrecedence(configured: bool, loading: bool, error: Option<string>, styles: Option<string>,
                          loading': bool, error': Option<string>, styles': Option<string>)
    ensures !configured ==>
      ShadcnContent(configured, loading, error, styles) == ShadcnContent(configured, loading', error', styles') == NotConfiguredContent
    ensures configured && loading ==>
      ShadcnContent(configured, loading, error, styles) == ShadcnContent(configured, loading, error', styles') == GeneratingContent
    ensures configured && !loading && Truthy(error) ==>
      ShadcnContent(configured, loading, error, styles) == ShadcnContent(configured, loading, error, styles')
    ensures configured && !loading && !Truthy(error) ==>
      ShadcnContent(configured, loading, error, styles) == if Truthy(styles) then styles.value else PlaceholderContent
  {
  }

  /** An error's text starts with `Error: ` and quotes the error. */
  lemma ErrorContentQuotes(error: string)
    requires error != ""
    ensures var content := ShadcnContent(true, false, Some(error), None);
      content[..7] == "Error: " && content[7..7 + |error|] == error
  {
    var content := ShadcnContent(true, false, Some(error), None);
    assert content == "Error: " + error + ErrorAdvice;
    assert content[7..7 + |error|] == error;
  }

  /** How the awaited styles request ends: a success result, an unsuccessful result, or a thrown error. */
  datatype GenerationOutcome =
    | Generated(stylesContent: string)
    | Unsuccessful(message: string)
    | Thrown(errorMessage: string)

  class ExportTabs {
    const store: Store
    var activeButtonKey: nat
    var shadcnStyles: Option<string>
    var isLoadingShadcn: bool
    var shadcnError: Option<string>

    constructor(store: Store)
      ensures this.store == store && activeButtonKey == 0
      ensures shadcnStyles == None && !isLoadingShadcn && shadcnError == None
    {
      this.store := store;
      activeButtonKey := 0;
      shadcnStyles := None;
      isLoadingShadcn := false;
      shadcnError := None;
    }

    predicate Configured()
      reads this, store
    {
      IsLlmConfigured(store.state.useLLM, store.state.llmConfig)
    }

    /** The text the ShadCN tab shows now. */
    function Content(): string
      reads this, store
    {
      ShadcnContent(Configured(), isLoadingShadcn, shadcnError, shadcnStyles)
    }

    /** The "Generate ShadCN Styles" button shows only when nothing is loading, failed or generated, and the LLM is configured. */
    predicate ShowsGenerateButton()
      reads this, store
    {
      !isLoadingShadcn && !Truthy(shadcnError) && !Truthy(shadcnStyles) && Configured()
    }

    /** Whenever the button shows, the tab shows the placeholder. */
    lemma ButtonShowsWithPlaceholder()
      requires ShowsGenerateButton()
      ensures Content() == PlaceholderContent
    {
    }

    /**
     * The part of `generateShadcnStyles` before the `await`: nothing happens
     * once styles exist; otherwise loading starts and the error is cleared.
     */
    method BeginGeneration() returns (started: bool)
      modifies this
      ensures started <==> !Truthy(old(shadcnStyles))
      ensures started ==> isLoadingShadcn && shadcnError == None
      ensures !started ==> isLoadingShadcn == old(isLoadingShadcn) && shadcnError == old(shadcnError)
      ensures shadcnStyles == old(shadcnStyles) && activeButtonKey == old(activeButtonKey)
    {
      if Truthy(shadcnStyles) {
        return false;
      }
      isLoadingShadcn := true;
      shadcnError := None;
      started := true;
    }

    /**
     * The part after the `await`: a success stores the styles, an
     * unsuccessful result stores its message as the error, a thrown error
     * stores it behind the failure prefix; loading ends in every case.
     */
    method CompleteGeneration(outcome: GenerationOutcome)
      modifies this
      ensures !isLoadingShadcn && activeButtonKey == old(activeButtonKey)
      ensures outcome.Generated? ==> shadcnStyles == Some(outcome.stylesContent) && shadcnError == old(shadcnError)
      ensures outcome.Unsuccessful? ==> shadcnError == Some(outcome.message) && shadcnStyles == old(shadcnStyles)
      ensures outcome.Thrown? ==>
        shadcnError == Some(FailurePrefix + outcome.errorMessage) && shadcnStyles == old(shadcnStyles)
    {
      match outcome {
        case Generated(content) =>
          shadcnStyles := Some(content);
        case Unsuccessful(message) =>
          shadcnError := Some(message);
        case Thrown(errorMessage) =>
          shadcnError := Some(FailurePrefix + errorMessage);
      }
      isLoadingShadcn := false;
    }

    /** `generateShadcnStyles` from end to end, with `outcome` how the awaited request ends. */
    method GenerateShadcnStyles(outcome: GenerationOutcome)
      modifies this
      ensures Truthy(old(shadcnStyles)) ==>
        shadcnStyles == old(shadcnStyles) && isLoadingShadcn == old(isLoadingShadcn) && shadcnError == old(shadcnError)
      ensures !Truthy(old(shadcnStyles)) ==> !isLoadingShadcn
      ensures !Truthy(old(shadcnStyles)) && outcome.Generated? ==>
        shadcnStyles == Some(outcome.stylesContent) && shadcnError == None
      ensures !Truthy(old(shadcnStyles)) && outcome.Unsuccessful? ==>
        shadcnError == Some(outcome.message) && shadcnStyles == old(shadcnStyles)
      ensures !Truthy(old(shadcnStyles)) && outcome.Thrown? ==>
        shadcnError == Some(FailurePrefix + outcome.errorMessage) && shadcnStyles == old(shadcnStyles)
      ensures activeButtonKey == old(activeButtonKey)
    {
      var started := BeginGeneration();
      if started {
        CompleteGeneration(outcome);
      }
    }

    /**
     * `handleTabChange(key)`: the tab becomes active, and generation starts
     * exactly for the ShadCN tab when no styles exist, nothing is loading and
     * the LLM is configured.
     */
    method HandleTabChange(key: nat) returns (started: bool)
      requires key < |TabIds|
      modifies this
      ensures activeButtonKey == key
      ensures started <==>
        TabIds[key] == "shadcn" && !Truthy(old(shadcnStyles)) && !old(isLoadingShadcn) && Configured()
      ensures started ==> isLoadingShadcn && shadcnError == None && shadcnStyles == old(shadcnStyles)
      ensures !started ==>
        shadcnStyles == old(shadcnStyles) && isLoadingShadcn == old(isLoadingShadcn) && shadcnError == old(shadcnError)
    {
      activeButtonKey := key;
      if TabIds[key] == "shadcn" && !Truthy(shadcnStyles) && !isLoadingShadcn && Configured() {
        started := BeginGeneration();
      } else {
        started := false;
      }
    }
  }
}
