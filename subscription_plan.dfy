// The Subscription Plan document: its plan code is kept stripped and
// upper-case, and its default feature overrides must be a valid override
// object.

module SubscriptionPlanDoc {
  import opened Common
  import opened JsonValue
  import opened SubscriptionContext
  import FeatureOverrides

  const OVERRIDE_MESSAGES: FeatureOverrides.Messages :=
    FeatureOverrides.Messages("Default Feature Overrides must contain valid JSON. Original error: ",
                              "Default Feature Overrides must be a JSON object mapping feature keys to values.")

  /** `_normalize_plan_code`. */
  function NormalizedPlanCode(code: string): (r: string)
    ensures code == "" ==> r == ""
    ensures code != "" ==> |r| == |Strip(code)| && forall i :: 0 <= i < |r| ==> r[i] == UpperChar(Strip(code)[i])
    ensures forall i :: 0 <= i < |r| ==> !('a' <= r[i] <= 'z')
  {
    if code == "" then code else Upper(Strip(code))
  }

  /** A normalised plan code is stripped, and normalising it again changes nothing. */
  lemma NormalizedPlanCodeStable(code: string)
    ensures Stripped(NormalizedPlanCode(code))
    ensures NormalizedPlanCode(NormalizedPlanCode(code)) == NormalizedPlanCode(code)
  {
    if code != "" {
      StripIsStripped(code);
      UpperKeepsStripped(Strip(code));
      StripOfStripped(Upper(Strip(code)));
      UpperIdempotent(Strip(code));
    }
  }

  /** Plan codes differing only in case and surrounding blanks are stored alike. */
  lemma NormalizedPlanCodeIgnoresCase(code: string)
    ensures NormalizedPlanCode(Upper(code)) == NormalizedPlanCode(code)
  {
    if code != "" {
      StripUpper(code);
      UpperIdempotent(Strip(code));
    }
  }

  lemma {:induction false} TrimStartUpper(s: string)
    ensures TrimStart(Upper(s)) == Upper(TrimStart(s))
    decreases |s|
  {
    if |s| > 0 && IsSpace(s[0]) {
      assert Upper(s)[1..] == Upper(s[1..]);
      TrimStartUpper(s[1..]);
    }
  }

  lemma {:induction false} TrimEndUpper(s: string)
    ensures TrimEnd(Upper(s)) == Upper(TrimEnd(s))
    decreases |s|
  {
    if |s| > 0 && IsSpace(s[|s| - 1]) {
      assert Upper(s)[..|s| - 1] == Upper(s[..|s| - 1]);
      TrimEndUpper(s[..|s| - 1]);
    }
  }

  /** Upper-casing does not move whitespace, so it commutes with strip. */
  lemma StripUpper(s: string)
    ensures Strip(Upper(s)) == Upper(Strip(s))
  {
    TrimStartUpper(s);
    TrimEndUpper(TrimStart(s));
  }

  class SubscriptionPlan {
    var planCode: string
    const defaultFeatureOverrides: string

    constructor(planCode: string, defaultFeatureOverrides: string)
      ensures this.planCode == planCode && this.defaultFeatureOverrides == defaultFeatureOverrides
    {
      this.planCode := planCode;
      this.defaultFeatureOverrides := defaultFeatureOverrides;
    }

    /**
     * `validate`: normalises the plan code, then checks the default
     * overrides; `parsed` is the parser's outcome on their text.
     */
    method Validate(parsed: Result<Json>) returns (err: Option<string>)
      modifies this
      ensures planCode == NormalizedPlanCode(old(planCode))
      ensures err == FeatureOverrides.Check(defaultFeatureOverrides, parsed, OVERRIDE_MESSAGES)
    {
      if planCode != "" {
        planCode := Upper(Strip(planCode));
      }
      err := FeatureOverrides.Check(defaultFeatureOverrides, parsed, OVERRIDE_MESSAGES);
    }

    /** `on_update` and `on_trash`: the subscription context cache is cleared. */
    method OnChange(contexts: ContextCache)
      modifies contexts
      ensures contexts.entries == map[]
    {
      contexts.Clear();
    }
  }
}
