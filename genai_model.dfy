/** The `GenaiModel` record and the `ModelSource` enum: a resolved model configuration. */
module GenaiModels {
  import opened Wrappers
  import opened JavaStrings

  const NO_MODEL_CONFIGURED := "no-model-configured"
  const NO_API_KEY_CONFIGURED := "no-api-key-configured"
  const DEFAULT_BASE_URL := "https://api.openai.com"

  datatype ModelSource = GenaiLocator | Properties

  /** Every component is a nullable Java reference. */
  datatype GenaiModel = GenaiModel(
    modelName: Option<string>,
    apiKey: Option<string>,
    baseUrl: Option<string>,
    source: Option<ModelSource>)

  /** `isValid()`: a model name and an API key are both present and non-empty. */
  predicate IsValid(m: GenaiModel) {
    NonEmpty(m.modelName) && NonEmpty(m.apiKey)
  }

  /** `isFromGenaiLocator()` */
  predicate IsFromGenaiLocator(m: GenaiModel) {
    m.source == Some(GenaiLocator)
  }

  /** `isFromProperties()` */
  predicate IsFromProperties(m: GenaiModel) {
    m.source == Some(Properties)
  }

  /** `createDefault(source)`: placeholder values that still make a valid configuration. */
  function CreateDefault(source: ModelSource): (m: GenaiModel)
    ensures IsValid(m) && m.source == Some(source)
    ensures m.modelName == Some(NO_MODEL_CONFIGURED) && m.apiKey == Some(NO_API_KEY_CONFIGURED)
    ensures m.baseUrl == Some(DEFAULT_BASE_URL)
  {
    GenaiModel(Some(NO_MODEL_CONFIGURED), Some(NO_API_KEY_CONFIGURED), Some(DEFAULT_BASE_URL), Some(source))
  }

  /** A configuration with a source comes from exactly one place; one without comes from neither. */
  lemma ExactlyOneSource(m: GenaiModel)
    ensures m.source.Some? ==> (IsFromGenaiLocator(m) <==> !IsFromProperties(m))
    ensures m.source.None? ==> !IsFromGenaiLocator(m) && !IsFromProperties(m)
  {
    if m.source.Some? {
      match m.source.value
      case GenaiLocator =>
      case Properties =>
    }
  }

  /** Validity does not look at the base URL or the source. */
  lemma ValidityIgnoresBaseUrlAndSource(m: GenaiModel, baseUrl: Option<string>, source: Option<ModelSource>)
    ensures IsValid(m) == IsValid(m.(baseUrl := baseUrl, source := source))
  {
  }
}
