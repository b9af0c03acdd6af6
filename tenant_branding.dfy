// The Tenant Branding document: a company's theme, custom properties and
// subscription plan.

module TenantBrandingDoc {
  import opened Common
  import opened JsonValue
  import opened SubscriptionContext
  import FeatureMatrix

  const INVALID_JSON_PREFIX: string := "Custom Properties must be valid JSON. Original error: "
  const NOT_OBJECT: string := "Custom Properties must be a JSON object mapping variable names to values."

  /** `_validate_json_properties`: empty text, or text that parses to an object. */
  function PropertiesError(text: string, parsed: Result<Json>): (r: Option<string>)
    ensures r.None? <==> text == "" || (parsed.Ok? && parsed.value.JObj?)
    ensures text != "" && parsed.Err? ==> r == Some(INVALID_JSON_PREFIX + parsed.error)
    ensures text != "" && parsed.Ok? && !parsed.value.JObj? ==> r == Some(NOT_OBJECT)
  {
    if text == "" then None
    else match parsed
      case Err(e) => Some(INVALID_JSON_PREFIX + e)
      case Ok(j) => if j.JObj? then None else Some(NOT_OBJECT)
  }

  class TenantBranding {
    var themeName: string
    const customProperties: string

    constructor(themeName: string, customProperties: string)
      ensures this.themeName == themeName && this.customProperties == customProperties
    {
      this.themeName := themeName;
      this.customProperties := customProperties;
    }

    /**
     * `validate`: strips the theme name, then checks the custom properties;
     * `parsed` is the parser's outcome on their text.
     */
    method Validate(parsed: Result<Json>) returns (err: Option<string>)
      modifies this
      ensures themeName == Strip(old(themeName)) && Stripped(themeName)
      ensures err == PropertiesError(customProperties, parsed)
    {
      if themeName != "" {
        themeName := Strip(themeName);
      }
      StripIsStripped(old(themeName));
      err := PropertiesError(customProperties, parsed);
    }

    /** `on_update` and `on_trash`: both the context cache and the matrix cache are cleared. */
    method OnChange(contexts: ContextCache, matrices: FeatureMatrix.MatrixCache)
      modifies contexts, matrices
      ensures contexts.entries == map[] && matrices.entries == map[]
    {
      contexts.Clear();
      matrices.Clear();
    }
  }
}
