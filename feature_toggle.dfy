// The Feature Toggle document: its key is kept stripped and lower-case and
// must match `^[a-z0-9_.-]+$`.

module FeatureToggleDoc {
  import opened Common
  import opened SubscriptionContext

  const KEY_REQUIRED: string := "Feature Key is required."

  function InvalidKeyMessage(key: string): string
  {
    "Feature Key " + key + " is invalid. Use lower-case letters, numbers, dots, underscores, or hyphens."
  }

  /** A character of the class `[a-z0-9_.-]`. */
  predicate KeyChar(c: char)
  {
    ('a' <= c <= 'z') || ('0' <= c <= '9') || c == '_' || c == '.' || c == '-'
  }

  predicate AllKeyChars(s: string)
  {
    forall i :: 0 <= i < |s| ==> KeyChar(s[i])
  }

  /**
   * `_FEATURE_KEY_PATTERN.match(s)`: one or more key characters, where `$`
   * also matches just before a final newline.
   */
  predicate PatternMatches(s: string)
  {
    (s != "" && AllKeyChars(s))
    || (|s| >= 2 && s[|s| - 1] == '\n' && AllKeyChars(s[..|s| - 1]))
  }

  /** On a stripped key the pattern means exactly: non-empty and only key characters. */
  lemma PatternOnStripped(s: string)
    requires Stripped(s)
    ensures PatternMatches(s) <==> s != "" && AllKeyChars(s)
  {
  }

  /** `_normalize_feature_key`. */
  function NormalizedKey(key: string): (r: string)
    ensures r == Normalize(key)
  {
    if key == "" then key else Normalize(key)
  }

  /** `_validate_feature_key_pattern` on the normalised key. */
  function KeyError(key: string): (r: Option<string>)
    ensures key == "" ==> r == Some(KEY_REQUIRED)
  {
    if key == "" then Some(KEY_REQUIRED)
    else if !PatternMatches(key) then Some(InvalidKeyMessage(key))
    else None
  }

  /**
   * A key is accepted exactly when its normalised form is non-empty and
   * made of key characters only; an accepted key is already normalised.
   */
  lemma AcceptedKeys(key: string)
    ensures KeyError(NormalizedKey(key)).None? <==> Normalize(key) != "" && AllKeyChars(Normalize(key))
    ensures KeyError(NormalizedKey(key)).None? ==> NormalizedKey(NormalizedKey(key)) == NormalizedKey(key)
  {
    NormalizeIdempotent(key);
    PatternOnStripped(Normalize(key));
  }

  class FeatureToggle {
    var featureKey: string

    constructor(featureKey: string)
      ensures this.featureKey == featureKey
    {
      this.featureKey := featureKey;
    }

    /** `validate`: normalises the key, then checks it. */
    method Validate() returns (err: Option<string>)
      modifies this
      ensures featureKey == NormalizedKey(old(featureKey))
      ensures err == KeyError(featureKey)
    {
      if featureKey != "" {
        featureKey := Normalize(featureKey);
      }
      err := KeyError(featureKey);
    }

    /** `on_update` and `on_trash`: the subscription context cache is cleared. */
    method OnChange(contexts: ContextCache)
      modifies contexts
      ensures contexts.entries == map[]
    {
      contexts.Clear();
    }
  }
}
