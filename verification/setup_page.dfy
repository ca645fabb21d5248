/**
 * The setup page: which sheets the wizard shows, in which order, and the step index
 * that selects the sheet on screen.
 */
module SetupPage {
  import opened JsValues
  import opened ConfigModels

  /** The wizard's sheets, one per element of the page's step list. */
  datatype StepId =
    | SetupStart | Language | Install | Data | Theme
    | ConversationStyle | ApiKey | Translate | TypingSimulation | Persona

  /** The React key each sheet is rendered with: its position among all ten candidates. */
  function Key(s: StepId): nat {
    match s
    case SetupStart => 0
    case Language => 1
    case Install => 2
    case Data => 3
    case Theme => 4
    case ConversationStyle => 5
    case ApiKey => 6
    case Translate => 7
    case TypingSimulation => 8
    case Persona => 9
  }

  /** What the page reads when it builds the list. */
  datatype SetupEnv = SetupEnv(
    isPwa: bool,
    config: Option<GlobalConfig>,    // undefined while the live query loads or when nothing is stored
    needAPIKeySetup: Option<bool>,   // undefined while the live query loads
    currentLanguage: string,
    defaultLanguage: string)

  // ---------------------------------------------------------------------------
  // The two lists the page builds side by side
  // ---------------------------------------------------------------------------

  /** The inclusion flags counted for `stepsLength`, one per candidate. */
  function Predicates(env: SetupEnv): (flags: seq<bool>)
    ensures |flags| == 10
    ensures forall s :: Key(s) < 10 && (flags[Key(s)] <==> Included(env, s))
  {
    [ true,
      true,
      !env.isPwa,
      true,
      env.config.Some?,
      env.config.Some?,
      BoolTruthy(env.needAPIKeySetup),
      env.config.Some? && env.currentLanguage != env.defaultLanguage,
      env.config.Some?,
      env.config.Some? ]
  }

  /** The number of true flags: what `.filter(Boolean).length` gives. */
  function CountTrue(flags: seq<bool>): (n: nat)
    ensures n <= |flags|
    ensures n == |flags| <==> forall i :: 0 <= i < |flags| ==> flags[i]
  {
    if flags == [] then 0 else (if flags[0] then 1 else 0) + CountTrue(flags[1..])
  }

  /** `stepsLength`: counted from the flags, it is the length of the separately filtered element list. */
  function StepsLength(env: SetupEnv): (n: nat)
    ensures n == |Steps(env)|
  {
    CompactCount(Predicates(env), Candidates(env));
    CountTrue(Predicates(env))
  }

  /** The element list before filtering: a sheet, or a falsy value where its condition fails. */
  function Candidates(env: SetupEnv): (elements: seq<Option<StepId>>)
    ensures |elements| == 10
    ensures forall i :: 0 <= i < |elements| ==> (elements[i].Some? <==> Predicates(env)[i])
    ensures forall i :: 0 <= i < |elements| && elements[i].Some? ==> Key(elements[i].value) == i
  {
    [ Some(SetupStart),
      Some(Language),
      if !env.isPwa then Some(Install) else None,
      Some(Data),
      if env.config.Some? then Some(Theme) else None,
      if env.config.Some? then Some(ConversationStyle) else None,
      if BoolTruthy(env.needAPIKeySetup) then Some(ApiKey) else None,
      if env.config.Some? && env.currentLanguage != env.defaultLanguage then Some(Translate) else None,
      if env.config.Some? then Some(TypingSimulation) else None,
      if env.config.Some? then Some(Persona) else None ]
  }

  /** `.filter(Boolean)`: the present elements, in their original order. */
  function Compact<T>(xs: seq<Option<T>>): (r: seq<T>)
    ensures |r| <= |xs|
  {
    if xs == [] then []
    else (if xs[0].Some? then [xs[0].value] else []) + Compact(xs[1..])
  }

  /** The sheets the wizard steps through: included sheets in key order 0..9, each once. */
  function Steps(env: SetupEnv): (steps: seq<StepId>)
    ensures KeysAscending(steps)
  {
    CompactKeyed(Candidates(env), 0);
    Compact(Candidates(env))
  }

  // ---------------------------------------------------------------------------
  // Reference description of the list
  // ---------------------------------------------------------------------------

  /** When each sheet belongs in the wizard, stated sheet by sheet. */
  predicate Included(env: SetupEnv, s: StepId) {
    match s
    case SetupStart => true
    case Language => true
    case Install => !env.isPwa
    case Data => true
    case Theme => env.config.Some?
    case ConversationStyle => env.config.Some?
    case ApiKey => BoolTruthy(env.needAPIKeySetup)
    case Translate => env.config.Some? && env.currentLanguage != env.defaultLanguage
    case TypingSimulation => env.config.Some?
    case Persona => env.config.Some?
  }

  /** Strictly increasing React keys: sheets appear in key order 0..9 and at most once. */
  predicate KeysAscending(s: seq<StepId>) {
    forall i, j :: 0 <= i < j < |s| ==> Key(s[i]) < Key(s[j])
  }

  /** The sheet that the "start with defaults" jump lands on. */
  function LastStep(env: SetupEnv): StepId {
    if env.config.Some? then Persona
    else if BoolTruthy(env.needAPIKeySetup) then ApiKey
    else Data
  }

  // ---------------------------------------------------------------------------
  // Facts about filtering
  // ---------------------------------------------------------------------------

  /** Filtering keeps one element per true flag when flags and elements line up. */
  lemma {:induction false} CompactCount<T>(flags: seq<bool>, xs: seq<Option<T>>)
    requires |flags| == |xs|
    requires forall i :: 0 <= i < |xs| ==> (flags[i] <==> xs[i].Some?)
    ensures |Compact(xs)| == CountTrue(flags)
  {
    if xs != [] {
      assert forall i :: 0 <= i < |xs[1..]| ==> (flags[1..][i] <==> xs[1..][i].Some?) by {
        forall i | 0 <= i < |xs[1..]| ensures flags[1..][i] <==> xs[1..][i].Some? {
          assert flags[1..][i] == flags[i + 1] && xs[1..][i] == xs[i + 1];
        }
      }
      CompactCount(flags[1..], xs[1..]);
    }
  }

  /** Filtering keeps exactly the present elements. */
  lemma {:induction false} CompactMember<T>(xs: seq<Option<T>>, x: T)
    ensures x in Compact(xs) <==> Some(x) in xs
  {
    if xs != [] {
      CompactMember(xs[1..], x);
      assert xs == [xs[0]] + xs[1..];
    }
  }

  /** Filtering a list whose element at position i has key base + i yields ascending keys, all at least base. */
  lemma {:induction false} CompactKeyed(xs: seq<Option<StepId>>, base: nat)
    requires forall i :: 0 <= i < |xs| && xs[i].Some? ==> Key(xs[i].value) == base + i
    ensures KeysAscending(Compact(xs))
    ensures forall k :: 0 <= k < |Compact(xs)| ==> base <= Key(Compact(xs)[k])
  {
    if xs != [] {
      var tail := xs[1..];
      assert forall i :: 0 <= i < |tail| && tail[i].Some? ==> Key(tail[i].value) == base + 1 + i by {
        forall i | 0 <= i < |tail| && tail[i].Some? ensures Key(tail[i].value) == base + 1 + i {
          assert tail[i] == xs[i + 1];
        }
      }
      CompactKeyed(tail, base + 1);
      var rest := Compact(tail);
      var head := if xs[0].Some? then [xs[0].value] else [];
      assert Compact(xs) == head + rest;
      forall k | 0 <= k < |head + rest| ensures base <= Key((head + rest)[k]) {
        if k >= |head| { assert (head + rest)[k] == rest[k - |head|]; }
      }
      forall i, j | 0 <= i < j < |head + rest| ensures Key((head + rest)[i]) < Key((head + rest)[j]) {
        assert (head + rest)[j] == rest[j - |head|];
        if i >= |head| { assert (head + rest)[i] == rest[i - |head|]; }
      }
    }
  }

  lemma KeyInjective(a: StepId, b: StepId)
    requires Key(a) == Key(b)
    ensures a == b
  {
  }

  /** Two key-ascending lists either both empty or both not, when they hold the same sheets. */
  lemma EmptyTogether(a: seq<StepId>, b: seq<StepId>)
    requires forall x :: x in a <==> x in b
    ensures a == [] <==> b == []
  {
    if a != [] { assert a[0] in a; }
    if b != [] { assert b[0] in b; }
  }

  /** With equal heads and the same sheets, two key-ascending lists hold the same sheets after the head. */
  lemma DropHeadMember(a: seq<StepId>, b: seq<StepId>, x: StepId)
    requires KeysAscending(a) && KeysAscending(b)
    requires forall y :: y in a <==> y in b
    requires a != [] && b != [] && a[0] == b[0]
    ensures x in a[1..] ==> x in b[1..]
  {
    if x in a[1..] {
      var k :| 0 <= k < |a[1..]| && a[1..][k] == x;
      assert a[k + 1] == x;
      assert x in b;
      var m :| 0 <= m < |b| && b[m] == x;
      assert m != 0;
      assert b[1..][m - 1] == x;
    }
  }

  /** Two non-empty key-ascending lists holding the same sheets start with the same sheet. */
  lemma SameHead(a: seq<StepId>, b: seq<StepId>)
    requires KeysAscending(a) && KeysAscending(b)
    requires forall x :: x in a <==> x in b
    requires a != [] && b != []
    ensures a[0] == b[0]
  {
    assert a[0] in b;
    var j :| 0 <= j < |b| && b[j] == a[0];
    assert b[0] in a;
    var i :| 0 <= i < |a| && a[i] == b[0];
    assert Key(a[0]) <= Key(a[i]);
    assert Key(b[0]) <= Key(b[j]);
    KeyInjective(a[0], b[0]);
  }

  /** A key-ascending list is determined by the sheets it holds. */
  lemma {:induction false} AscendingUnique(a: seq<StepId>, b: seq<StepId>)
    requires KeysAscending(a) && KeysAscending(b)
    requires forall x :: x in a <==> x in b
    ensures a == b
    decreases |a|
  {
    EmptyTogether(a, b);
    if a != [] {
      SameHead(a, b);
      forall x ensures x in a[1..] <==> x in b[1..] {
        DropHeadMember(a, b, x);
        DropHeadMember(b, a, x);
      }
      AscendingUnique(a[1..], b[1..]);
      assert a == [a[0]] + a[1..];
      assert b == [b[0]] + b[1..];
    }
  }

  // ---------------------------------------------------------------------------
  // Properties of the step list
  // ---------------------------------------------------------------------------

  /** A sheet is in the list exactly when its own condition holds. */
  lemma StepPresentIff(env: SetupEnv, s: StepId)
    ensures s in Steps(env) <==> Included(env, s)
  {
    CompactMember(Candidates(env), s);
  }

  /** The list opens with the welcome and language sheets, followed by the filtered remainder. */
  lemma StepsAfterLanguage(env: SetupEnv)
    ensures Steps(env) == [SetupStart, Language] + Compact(Candidates(env)[2..])
  {
    var c := Candidates(env);
    assert c[1..][1..] == c[2..];
    assert Compact(c[1..]) == [Language] + Compact(c[2..]);
  }

  /** The welcome and language sheets always come first, and the list has at least three sheets. */
  lemma StepsStartWithWelcomeAndLanguage(env: SetupEnv)
    ensures |Steps(env)| >= 3
    ensures Steps(env)[0] == SetupStart && Steps(env)[1] == Language
    ensures Data in Steps(env)
  {
    StepsAfterLanguage(env);
    StepPresentIff(env, Data);
  }

  /** Every included sheet has a key no larger than the last sheet's. */
  lemma LastStepIsMaximal(env: SetupEnv, s: StepId)
    requires Included(env, s)
    ensures Included(env, LastStep(env))
    ensures Key(s) <= Key(LastStep(env))
  {
  }

  /** The last element of the list is LastStep: Persona with a config, else the API-key sheet when needed, else Data. */
  lemma {:induction false} LastElementIsLastStep(env: SetupEnv)
    ensures |Steps(env)| > 0
    ensures Steps(env)[|Steps(env)| - 1] == LastStep(env)
  {
    var s := Steps(env);
    StepsStartWithWelcomeAndLanguage(env);
    var last := s[|s| - 1];
    StepPresentIff(env, last);
    LastStepIsMaximal(env, last);
    StepPresentIff(env, LastStep(env));
    var k :| 0 <= k < |s| && s[k] == LastStep(env);
    assert Key(s[k]) <= Key(last);
    KeyInjective(last, LastStep(env));
  }

  /** The list a wizard without a config shows: welcome, language, [install], data, [API key]. */
  function ShortSteps(install: bool, apiKey: bool): seq<StepId> {
    [SetupStart, Language] + (if install then [Install] else []) + [Data] + (if apiKey then [ApiKey] else [])
  }

  lemma ShortStepsAscending(install: bool, apiKey: bool)
    ensures KeysAscending(ShortSteps(install, apiKey))
  {
    if install && apiKey {
      assert ShortSteps(install, apiKey) == [SetupStart, Language, Install, Data, ApiKey];
    } else if install {
      assert ShortSteps(install, apiKey) == [SetupStart, Language, Install, Data];
    } else if apiKey {
      assert ShortSteps(install, apiKey) == [SetupStart, Language, Data, ApiKey];
    } else {
      assert ShortSteps(install, apiKey) == [SetupStart, Language, Data];
    }
  }

  /** Without a config the wizard is only welcome, language, [install], data, [API key]. */
  lemma {:induction false} StepsWithoutConfig(env: SetupEnv)
    requires env.config.None?
    ensures Steps(env) == ShortSteps(!env.isPwa, BoolTruthy(env.needAPIKeySetup))
  {
    var expected := ShortSteps(!env.isPwa, BoolTruthy(env.needAPIKeySetup));
    forall x ensures x in Steps(env) <==> x in expected {
      StepPresentIff(env, x);
    }
    ShortStepsAscending(!env.isPwa, BoolTruthy(env.needAPIKeySetup));
    AscendingUnique(Steps(env), expected);
  }

  /** Installing as a PWA removes exactly the install sheet, at index 2, and keeps the others in order. */
  lemma {:induction false} InstallStepFlip(env: SetupEnv)
    ensures var shown := Steps(env.(isPwa := false));
            var hidden := Steps(env.(isPwa := true));
            |hidden| >= 2 && |shown| == |hidden| + 1
            && shown == hidden[..2] + [Install] + hidden[2..]
  {
    var on := Candidates(env.(isPwa := false));
    var off := Candidates(env.(isPwa := true));
    StepsAfterLanguage(env.(isPwa := false));
    StepsAfterLanguage(env.(isPwa := true));
    assert on[2..][1..] == on[3..] && off[2..][1..] == off[3..];
    assert on[3..] == off[3..];
    var rest := Compact(off[3..]);
    assert Compact(on[2..]) == [Install] + rest;
    assert Compact(off[2..]) == rest;
    var hidden := [SetupStart, Language] + rest;
    assert hidden[..2] == [SetupStart, Language] && hidden[2..] == rest;
  }

  // ---------------------------------------------------------------------------
  // The language auto-correction effect
  // ---------------------------------------------------------------------------

  /**
   * The update the page issues when it sees a config: English with translation still on
   * gets translation switched off, and nothing else is written.
   */
  function TranslationCorrection(config: Option<GlobalConfig>): (update: Option<ConversationConfigPatch>)
    ensures update.Some? <==>
      config.Some? && config.value.language == "en" && config.value.conversationConfig.doTranslation
    ensures update.Some? ==> update.value == ConversationConfigPatch(None, Some(false))
  {
    if config.Some? && config.value.language == "en" && config.value.conversationConfig.doTranslation
    then Some(ConversationConfigPatch(None, Some(false)))
    else None
  }

  /** Once its update is stored the effect issues nothing more, and no other setting moved. */
  lemma TranslationCorrectionSettles(g: GlobalConfig)
    requires TranslationCorrection(Some(g)).Some?
    ensures var g' := UpdateConversationConfig(g, TranslationCorrection(Some(g)).value);
            TranslationCorrection(Some(g')) == None
            && g'.language == g.language && g'.theme == g.theme
            && g'.conversationConfig.promptTemplateId == g.conversationConfig.promptTemplateId
  {
  }

  // ---------------------------------------------------------------------------
  // The step index
  // ---------------------------------------------------------------------------

  /** The page's `step` state. It is never clamped to the list. */
  class SetupWizard {
    var step: int

    constructor ()
      ensures step == 0
    {
      step := 0;
    }

    /** The sheet on screen: `steps[step]`, nothing when the index is off the list. */
    function Rendered(env: SetupEnv): (r: Option<StepId>)
      reads this
      ensures r.Some? <==> 0 <= step < StepsLength(env)
      ensures r.Some? ==> step < |Steps(env)| && r.value == Steps(env)[step] && Included(env, r.value)
    {
      var r := At(Steps(env), step);
      if r.Some? then StepPresentIff(env, r.value); r else r
    }

    /** `setStep((prev) => prev + 1)`. */
    method Advance()
      modifies this
      ensures step == old(step) + 1
    {
      step := step + 1;
    }

    /** `setStep((prev) => prev - 1)`. */
    method Retreat()
      modifies this
      ensures step == old(step) - 1
    {
      step := step - 1;
    }

    /** `goToLastStep`: jump to `stepsLength - 1`, the last sheet, from wherever the wizard is. */
    method GoToLastStep(env: SetupEnv)
      modifies this
      ensures step == StepsLength(env) - 1
      ensures Rendered(env) == Some(LastStep(env))
    {
      step := StepsLength(env) - 1;
      LastElementIsLastStep(env);
    }
  }

  /** A fresh wizard shows the welcome sheet. */
  lemma InitialStepShowsWelcome(env: SetupEnv)
    ensures At(Steps(env), 0) == Some(SetupStart)
  {
    StepsStartWithWelcomeAndLanguage(env);
  }

  /** Any index off the list, past its end or below zero, shows nothing. */
  lemma OffListShowsNothing(env: SetupEnv, i: int)
    ensures At(Steps(env), i) == None <==> i < 0 || i >= StepsLength(env)
  {
  }
}
