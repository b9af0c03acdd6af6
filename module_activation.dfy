// The Module Activation document: which modules a subscription plan
// enables, with their dependencies and feature overrides.

module ModuleActivationDoc {
  import opened Common
  import opened JsonValue
  import opened SubscriptionContext
  import FeatureOverrides

  const OVERRIDE_MESSAGES: FeatureOverrides.Messages :=
    FeatureOverrides.Messages("Feature Overrides must contain valid JSON. Original error: ",
                              "Feature Overrides must be a JSON object with feature keys.")

  /** A stored activation, as the uniqueness query sees it. */
  datatype StoredActivation = StoredActivation(name: string, plan: string, moduleKey: string)

  /** `_normalize_module_key`. */
  function NormalizedKey(key: string): (r: string)
    ensures r == Normalize(key)
  {
    if key == "" then key else Normalize(key)
  }

  /** Another activation of the same plan already has the key. */
  predicate Duplicate(rows: seq<StoredActivation>, name: string, plan: string, key: string)
  {
    exists i :: 0 <= i < |rows| && rows[i].plan == plan && rows[i].moduleKey == key && rows[i].name != name
  }

  function DuplicateMessage(key: string, plan: string): string
  {
    "Module " + key + " is already defined for subscription plan " + plan + "."
  }

  function SelfDependencyMessage(key: string): string
  {
    "Module " + key + " cannot depend on itself."
  }

  /** The stored `depends_on`: the distinct normalised tokens, sorted and joined with ", ". */
  function DependsAfter(dependsOn: string): string
  {
    if dependsOn == "" then dependsOn else Join(SortedSet(DependsOnTokens(dependsOn)), ", ")
  }

  /** The key is a stored activation of the same plan under another name (checked only when both are set). */
  predicate DuplicateFound(rows: seq<StoredActivation>, name: string, plan: string, key: string)
  {
    plan != "" && key != "" && Duplicate(rows, name, plan, key)
  }

  /** The module names itself among its dependencies. */
  predicate DependsOnItself(key: string, dependsOn: string)
  {
    dependsOn != "" && key != "" && key in DependsOnTokens(dependsOn)
  }

  /**
   * `validate`: the error it raises, if any, for a document with the given
   * fields, `key` being the already normalised module key.
   */
  function ValidationError(rows: seq<StoredActivation>, name: string, plan: string, key: string, dependsOn: string,
                           overrides: string, parsed: Result<Json>): (r: Option<string>)
    ensures DuplicateFound(rows, name, plan, key) ==> r == Some(DuplicateMessage(key, plan))
    ensures !DuplicateFound(rows, name, plan, key) && DependsOnItself(key, dependsOn) ==> r == Some(SelfDependencyMessage(key))
    ensures !DuplicateFound(rows, name, plan, key) && !DependsOnItself(key, dependsOn) ==>
      (r.None? <==> FeatureOverrides.Check(overrides, parsed, OVERRIDE_MESSAGES).None?)
  {
    if DuplicateFound(rows, name, plan, key) then Some(DuplicateMessage(key, plan))
    else if DependsOnItself(key, dependsOn) then Some(SelfDependencyMessage(key))
    else FeatureOverrides.Check(overrides, parsed, OVERRIDE_MESSAGES)
  }

  // ---------------------------------------------------------------------
  // Properties of the stored dependency list
  // ---------------------------------------------------------------------

  lemma {:induction false} TrimStartSuffix(s: string)
    ensures TrimStart(s) == s[|s| - |TrimStart(s)|..]
    decreases |s|
  {
    if |s| > 0 && IsSpace(s[0]) {
      TrimStartSuffix(s[1..]);
    }
  }

  lemma {:induction false} TrimEndPrefix(s: string)
    ensures TrimEnd(s) == s[..|TrimEnd(s)|]
    decreases |s|
  {
    if |s| > 0 && IsSpace(s[|s| - 1]) {
      TrimEndPrefix(s[..|s| - 1]);
    }
  }

  /** Normalising a token introduces no comma. */
  lemma NormalizeNoComma(p: string)
    requires ',' !in p
    ensures ',' !in Normalize(p)
  {
    TrimStartSuffix(p);
    TrimEndPrefix(TrimStart(p));
    var t := Strip(p);
    assert forall c :: c in t ==> c in TrimStart(p);
    assert forall c :: c in TrimStart(p) ==> c in p;
    forall i | 0 <= i < |t| ensures Lower(t)[i] != ',' {
      assert t[i] in t;
    }
  }

  /** Leading blanks do not change a normalised token. */
  lemma NormalizeAfterSpace(x: string)
    ensures Normalize(" " + x) == Normalize(x)
  {
    assert (" " + x)[1..] == x;
  }

  /** Every token is non-empty, normalised and free of commas. */
  lemma {:induction false} TokensShape(parts: seq<string>)
    requires forall k :: 0 <= k < |parts| ==> ',' !in parts[k]
    ensures forall x | x in NonBlankTokens(parts) :: x != "" && Normalize(x) == x && ',' !in x
  {
    if parts != [] {
      var front := parts[..|parts| - 1];
      var last := parts[|parts| - 1];
      TokensShape(front);
      if Strip(last) != "" {
        NormalizeIdempotent(last);
        NormalizeNoComma(last);
      }
    }
  }

  /** The part is not blank and normalises to the token. */
  predicate Kept(part: string, token: string)
  {
    Strip(part) != "" && Normalize(part) == token
  }

  /** When no part is blank, the tokens are the normalised parts. */
  lemma {:induction false} NonBlankAll(parts: seq<string>, normalized: seq<string>)
    requires |parts| == |normalized|
    requires forall k :: 0 <= k < |parts| ==> Kept(parts[k], normalized[k])
    ensures NonBlankTokens(parts) == normalized
  {
    if parts != [] {
      var n := |parts| - 1;
      var front, rest := parts[..n], normalized[..n];
      assert forall k :: 0 <= k < |front| ==> front[k] == parts[k] && rest[k] == normalized[k];
      NonBlankAll(front, rest);
      assert Kept(parts[n], normalized[n]);
      NonBlankSnoc(parts);
      LastSplit(normalized);
    }
  }

  /** A non-empty sequence is its front followed by its last element. */
  lemma LastSplit<T>(s: seq<T>)
    requires s != []
    ensures s == s[..|s| - 1] + [s[|s| - 1]]
  {
  }

  /** A last part that is not blank adds its normalised form at the end. */
  lemma NonBlankSnoc(parts: seq<string>)
    requires parts != [] && Strip(parts[|parts| - 1]) != ""
    ensures NonBlankTokens(parts) == NonBlankTokens(parts[..|parts| - 1]) + [Normalize(parts[|parts| - 1])]
  {
  }

  /** The pieces a stored list splits into normalise back to its tokens. */
  lemma PiecesNormalize(tokens: seq<string>, k: nat)
    requires 1 <= k < |tokens|
    requires tokens[k] != "" && Normalize(tokens[k]) == tokens[k]
    ensures var piece := PadAll(tokens[1..], " ")[k - 1];
      Normalize(piece) == tokens[k] && Strip(piece) != ""
  {
    PadAllAt(tokens[1..], " ", k - 1);
    NormalizeAfterSpace(tokens[k]);
  }

  /** Splitting a stored list gives back its tokens. */
  lemma TokensOfJoined(tokens: seq<string>)
    requires |tokens| >= 1
    requires forall k :: 0 <= k < |tokens| ==> tokens[k] != "" && Normalize(tokens[k]) == tokens[k] && ',' !in tokens[k]
    ensures DependsOnTokens(Join(tokens, ", ")) == tokens
  {
    assert ", " == [','] + " ";
    SplitOfJoined(tokens);
    PiecesAllNormalize(tokens);
    NonBlankAll([tokens[0]] + PadAll(tokens[1..], " "), tokens);
  }

  lemma SplitOfJoined(tokens: seq<string>)
    requires |tokens| >= 1
    requires forall k :: 0 <= k < |tokens| ==> ',' !in tokens[k]
    ensures Split(Join(tokens, [','] + " "), ',') == [tokens[0]] + PadAll(tokens[1..], " ")
  {
    SplitJoin(tokens, ',', " ");
  }

  lemma PiecesAllNormalize(tokens: seq<string>)
    requires |tokens| >= 1
    requires forall k :: 0 <= k < |tokens| ==> tokens[k] != "" && Normalize(tokens[k]) == tokens[k]
    ensures var parts := [tokens[0]] + PadAll(tokens[1..], " ");
      |parts| == |tokens| && forall k :: 0 <= k < |parts| ==> Kept(parts[k], tokens[k])
  {
    var parts := [tokens[0]] + PadAll(tokens[1..], " ");
    forall k | 0 <= k < |parts| ensures Kept(parts[k], tokens[k]) {
      if k > 0 {
        PiecesNormalize(tokens, k);
      }
    }
  }

  /** The stored list holds the distinct tokens of the entered one, sorted. */
  lemma DependsAfterMeans(dependsOn: string)
    requires dependsOn != ""
    ensures SortedSet(DependsOnTokens(dependsOn)) != [] ==>
      DependsOnTokens(DependsAfter(dependsOn)) == SortedSet(DependsOnTokens(dependsOn))
    ensures SortedSet(DependsOnTokens(dependsOn)) == [] ==> DependsAfter(dependsOn) == ""
    ensures forall x :: x in DependsOnTokens(DependsAfter(dependsOn)) <==> x in DependsOnTokens(dependsOn)
  {
    var tokens := DependsOnTokens(dependsOn);
    var sorted := SortedSet(tokens);
    TokensShape(Split(dependsOn, ','));
    if sorted != [] {
      forall k | 0 <= k < |sorted| ensures sorted[k] != "" && Normalize(sorted[k]) == sorted[k] && ',' !in sorted[k] {
        assert sorted[k] in Elems(sorted);
      }
      TokensOfJoined(sorted);
    } else {
      EmptyElems(tokens);
      EmptyElems(sorted);
    }
    forall x ensures x in DependsOnTokens(DependsAfter(dependsOn)) <==> x in tokens {
      assert x in sorted <==> x in Elems(sorted);
      assert x in tokens <==> x in Elems(tokens);
      if sorted == [] {
        assert DependsOnTokens("") == [] by {
          assert Split("", ',') == [""];
          assert Strip("") == "";
        }
      }
    }
  }

  /** Storing the dependency list a second time changes nothing. */
  lemma DependsAfterStable(dependsOn: string)
    ensures DependsAfter(DependsAfter(dependsOn)) == DependsAfter(dependsOn)
  {
    if dependsOn != "" {
      var sorted := SortedSet(DependsOnTokens(dependsOn));
      DependsAfterMeans(dependsOn);
      if sorted != [] {
        assert sorted[0] in Elems(sorted);
        TokensShape(Split(dependsOn, ','));
        assert sorted[0] in DependsOnTokens(dependsOn);
        JoinEmpty([sorted[0]], ", ");
        assert Join(sorted, ", ") != "" by {
          if |sorted| > 1 {
            assert |Join(sorted, ", ")| >= |sorted[0]|;
          }
        }
        SortedSetOfSorted(sorted);
      }
    }
  }

  /**
   * A document that validated once validates again unchanged: its key and
   * dependency list are already in stored form and raise nothing new.
   */
  lemma RevalidationAccepts(rows: seq<StoredActivation>, name: string, plan: string, key: string, dependsOn: string,
                            overrides: string, parsed: Result<Json>)
    requires ValidationError(rows, name, plan, NormalizedKey(key), dependsOn, overrides, parsed).None?
    ensures NormalizedKey(NormalizedKey(key)) == NormalizedKey(key)
    ensures DependsAfter(DependsAfter(dependsOn)) == DependsAfter(dependsOn)
    ensures ValidationError(rows, name, plan, NormalizedKey(NormalizedKey(key)), DependsAfter(dependsOn), overrides, parsed).None?
  {
    NormalizeIdempotent(key);
    DependsAfterStable(dependsOn);
    if dependsOn != "" {
      DependsAfterMeans(dependsOn);
    }
  }

  // ---------------------------------------------------------------------
  // The document
  // ---------------------------------------------------------------------

  class ModuleActivation {
    const name: string
    const plan: string
    var moduleKey: string
    var dependsOn: string
    const featureOverrides: string

    constructor(name: string, plan: string, moduleKey: string, dependsOn: string, featureOverrides: string)
      ensures this.name == name && this.plan == plan && this.moduleKey == moduleKey
      ensures this.dependsOn == dependsOn && this.featureOverrides == featureOverrides
    {
      this.name := name;
      this.plan := plan;
      this.moduleKey := moduleKey;
      this.dependsOn := dependsOn;
      this.featureOverrides := featureOverrides;
    }

    /**
     * `validate`: normalises the key, refuses a duplicate (plan, key) and a
     * self-dependency, rewrites `depends_on` in stored form, and checks the
     * overrides.  `rows` are the stored activations and `parsed` the
     * parser's outcome on the overrides text.
     */
    method Validate(rows: seq<StoredActivation>, parsed: Result<Json>) returns (err: Option<string>)
      modifies this
      ensures moduleKey == NormalizedKey(old(moduleKey))
      ensures err == ValidationError(rows, name, plan, moduleKey, old(dependsOn), featureOverrides, parsed)
      ensures DuplicateFound(rows, name, plan, moduleKey) || DependsOnItself(moduleKey, old(dependsOn)) ==>
        dependsOn == old(dependsOn)
      ensures !DuplicateFound(rows, name, plan, moduleKey) && !DependsOnItself(moduleKey, old(dependsOn)) ==>
        dependsOn == DependsAfter(old(dependsOn))
    {
      if moduleKey != "" {
        moduleKey := Normalize(moduleKey);
      }
      if DuplicateFound(rows, name, plan, moduleKey) {
        return Some(DuplicateMessage(moduleKey, plan));
      }
      if dependsOn != "" {
        if DependsOnItself(moduleKey, dependsOn) {
          return Some(SelfDependencyMessage(moduleKey));
        }
        dependsOn := Join(SortedSet(DependsOnTokens(dependsOn)), ", ");
      }
      err := FeatureOverrides.Check(featureOverrides, parsed, OVERRIDE_MESSAGES);
    }

    /** `on_update` and `on_trash`: the subscription context cache is cleared. */
    method OnChange(contexts: ContextCache)
      modifies contexts
      ensures contexts.entries == map[]
    {
      contexts.Clear();
    }
  }
}
