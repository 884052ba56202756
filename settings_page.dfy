/** The settings page of src/routes/settings.tsx: the model-list and
    API-key states, the classification of a failed model request, and what
    the page shows for each state. The model-list request itself is an
    input. */
module SettingsPage {
  import opened Common
  import opened AdapterUtils
  import opened ContextPatches

  datatype ValidationStatus = ValidationIdle | Validating | Valid | Invalid

  datatype ApiKeyValidation = ApiKeyValidation(status: ValidationStatus, error: Option<string>)

  datatype ModelsStatus = ModelsIdle | Loading | Loaded | AuthRequired | LoadError

  datatype ModelInfo = ModelInfo(id: string, ownedBy: Option<string>)

  datatype ModelsState = ModelsState(status: ModelsStatus, models: seq<ModelInfo>, error: Option<string>)

  const KeyPrefix := "sk-"
  const KeyPrefixError := "API Key must start with 'sk-'"
  const UnknownError := "Unknown error"
  const ValidationFailed := "Failed to validate"

  /** `getInputBorderClass` */
  function InputBorderClass(status: ValidationStatus): (r: string)
    ensures status == Invalid ==> r == "border-destructive"
    ensures status == Valid ==> r == "border-green-500"
    ensures status != Invalid && status != Valid ==> r == "border-input"
  {
    if status == Invalid then "border-destructive"
    else if status == Valid then "border-green-500"
    else "border-input"
  }

  /** `getModelPlaceholder`: the status decides first, then whether the
      list is empty. */
  function ModelPlaceholder(state: ModelsState): (r: string)
    ensures state.status == Loading ==> r == "Loading models..."
    ensures state.status == AuthRequired ==> r == "Fill API Key to load models"
    ensures state.status == LoadError ==> r == "Failed to load models"
    ensures state.status in {ModelsIdle, Loaded} && |state.models| == 0 ==> r == "No models available"
    ensures state.status in {ModelsIdle, Loaded} && |state.models| > 0 ==> r == "Select a model"
  {
    if state.status == Loading then "Loading models..."
    else if state.status == AuthRequired then "Fill API Key to load models"
    else if state.status == LoadError then "Failed to load models"
    else if |state.models| == 0 then "No models available"
    else "Select a model"
  }

  /** `canSelectModel` */
  function CanSelectModel(state: ModelsState): (b: bool)
    ensures b <==> state.status == Loaded && |state.models| > 0
  {
    state.status == Loaded && |state.models| > 0
  }

  // ---------------------------------------------------------------------
  // Sorting the model list by id

  /** A comparison `le(a, b)`, standing for `a.localeCompare(b) <= 0`: the
      collation is the runtime's, so the model takes it as a parameter and
      asks only that it be total and transitive where sortedness is
      proved. */
  type Collation = (string, string) -> bool

  ghost predicate TotalOrder(le: Collation) {
    && (forall a, b :: le(a, b) || le(b, a))
    && (forall a, b, c :: le(a, b) && le(b, c) ==> le(a, c))
  }

  /** Code-point order is one such comparison. */
  lemma CodePointOrderIsTotal()
    ensures TotalOrder((a: string, b: string) => NameLe(a, b))
  {
    forall a: string, b: string
      ensures NameLe(a, b) || NameLe(b, a)
    {
      NameLeTotal(a, b);
    }
    forall a: string, b: string, c: string | NameLe(a, b) && NameLe(b, c)
      ensures NameLe(a, c)
    {
      NameLeTrans(a, b, c);
    }
  }

  /** Inserts after every model whose id is not greater, as a stable sort
      places a later element. */
  function InsertModel(m: ModelInfo, sorted: seq<ModelInfo>, le: Collation): seq<ModelInfo>
    decreases |sorted|
  {
    if |sorted| == 0 then [m]
    else if !le(sorted[0].id, m.id) then [m] + sorted
    else [sorted[0]] + InsertModel(m, sorted[1..], le)
  }

  /** `modelList.sort((a, b) => a.id.localeCompare(b.id))` */
  function SortModels(models: seq<ModelInfo>, le: Collation): seq<ModelInfo>
    decreases |models|
  {
    if |models| == 0 then [] else InsertModel(models[|models| - 1], SortModels(models[..|models| - 1], le), le)
  }

  predicate SortedById(models: seq<ModelInfo>, le: Collation) {
    forall i, j :: 0 <= i < j < |models| ==> le(models[i].id, models[j].id)
  }

  lemma {:induction false} InsertModelPermutes(m: ModelInfo, sorted: seq<ModelInfo>, le: Collation)
    ensures multiset(InsertModel(m, sorted, le)) == multiset(sorted) + multiset{m}
    decreases |sorted|
  {
    if |sorted| > 0 && le(sorted[0].id, m.id) {
      InsertModelPermutes(m, sorted[1..], le);
      assert sorted == [sorted[0]] + sorted[1..];
    }
  }

  lemma {:induction false} InsertModelSorted(m: ModelInfo, sorted: seq<ModelInfo>, le: Collation)
    requires TotalOrder(le) && SortedById(sorted, le)
    ensures SortedById(InsertModel(m, sorted, le), le)
    decreases |sorted|
  {
    if |sorted| == 0 {
    } else if !le(sorted[0].id, m.id) {
      assert le(m.id, sorted[0].id);
      forall j | 0 <= j < |sorted|
        ensures le(m.id, sorted[j].id)
      {
        if j > 0 {
          assert le(sorted[0].id, sorted[j].id);
        }
      }
      ConsSorted(m, sorted, le);
    } else {
      InsertModelSorted(m, sorted[1..], le);
      InsertModelPermutes(m, sorted[1..], le);
      FirstStaysFirst(sorted[0], m, sorted[1..], InsertModel(m, sorted[1..], le), le);
      ConsSorted(sorted[0], InsertModel(m, sorted[1..], le), le);
    }
  }

  /** A model no greater than every model of a sorted list can go in front. */
  lemma ConsSorted(x: ModelInfo, r: seq<ModelInfo>, le: Collation)
    requires SortedById(r, le)
    requires forall k :: 0 <= k < |r| ==> le(x.id, r[k].id)
    ensures SortedById([x] + r, le)
  {
    var xr := [x] + r;
    forall i, j | 0 <= i < j < |xr|
      ensures le(xr[i].id, xr[j].id)
    {
      if i == 0 {
        assert xr[j] == r[j - 1];
      } else {
        assert xr[i] == r[i - 1] && xr[j] == r[j - 1];
      }
    }
  }

  /** The head of a sorted list stays below whatever the insertion into its
      tail produces, when it is below the inserted model too. */
  lemma FirstStaysFirst(x: ModelInfo, m: ModelInfo, rest: seq<ModelInfo>, r: seq<ModelInfo>, le: Collation)
    requires le(x.id, m.id) && multiset(r) == multiset(rest) + multiset{m}
    requires forall j :: 0 <= j < |rest| ==> le(x.id, rest[j].id)
    ensures forall k :: 0 <= k < |r| ==> le(x.id, r[k].id)
  {
    forall k | 0 <= k < |r|
      ensures le(x.id, r[k].id)
    {
      assert r[k] in multiset(r);
      if r[k] != m {
        assert r[k] in multiset(rest);
        var j :| 0 <= j < |rest| && rest[j] == r[k];
      }
    }
  }

  /** Whatever the collation, the loaded list holds the same models. */
  lemma {:induction false} SortModelsPermutes(models: seq<ModelInfo>, le: Collation)
    ensures multiset(SortModels(models, le)) == multiset(models)
    decreases |models|
  {
    if |models| > 0 {
      var init := models[..|models| - 1];
      SortModelsPermutes(init, le);
      InsertModelPermutes(models[|models| - 1], SortModels(init, le), le);
      DropLastSnoc(models);
    }
  }

  /** With a total, transitive collation, the loaded list holds the same
      models, ordered by id. */
  lemma {:induction false} SortModelsSorts(models: seq<ModelInfo>, le: Collation)
    requires TotalOrder(le)
    ensures SortedById(SortModels(models, le), le)
    ensures multiset(SortModels(models, le)) == multiset(models)
    decreases |models|
  {
    SortModelsPermutes(models, le);
    if |models| > 0 {
      var init := models[..|models| - 1];
      SortModelsSorts(init, le);
      InsertModelSorted(models[|models| - 1], SortModels(init, le), le);
    }
  }

  /** A model can be picked after a successful load exactly when the
      provider listed at least one model; never while loading, when idle or
      after a failed load. */
  lemma SelectableAfterLoad(outcome: FetchOutcome, le: Collation)
    ensures outcome.Fetched? ==>
      (CanSelectModel(ModelsState(Loaded, SortModels(outcome.models, le), None)) <==> |outcome.models| > 0)
    ensures outcome.FetchFailed? ==> !CanSelectModel(LoadFailure(outcome.error))
    ensures !CanSelectModel(ModelsState(Loading, [], None)) && !CanSelectModel(ModelsState(ModelsIdle, [], None))
  {
    if outcome.Fetched? {
      SortModelsPermutes(outcome.models, le);
      assert |multiset(SortModels(outcome.models, le))| == |multiset(outcome.models)|;
    }
  }

  // ---------------------------------------------------------------------
  // Failures

  /** What the model request gave: the list, or what it threw. */
  datatype FetchOutcome = Fetched(models: seq<ModelInfo>) | FetchFailed(error: Thrown)

  /** The message of a caught value, with the fallback for a non-Error. */
  function FailureMessage(e: Thrown, fallback: string): string {
    if e.ErrorObject? then e.message else fallback
  }

  /** The auth test of `loadModels`. */
  predicate LooksLikeAuthFailure(message: string) {
    || Includes(message, "401")
    || Includes(message, "403")
    || Includes(ToLower(message), "unauthorized")
    || Includes(ToLower(message), "auth")
  }

  /** The "unauthorized" test adds nothing: any message it catches, the
      "auth" test catches too. */
  lemma UnauthorizedTestSubsumed(message: string)
    ensures Includes(ToLower(message), "unauthorized") ==> Includes(ToLower(message), "auth")
  {
    var lower := ToLower(message);
    if Includes(lower, "unauthorized") {
      var i :| 0 <= i <= |lower| && OccursAt(lower, "unauthorized", i);
      assert |"unauthorized"| == 12;
      assert lower[i + 2..i + 6] == lower[i..i + 12][2..6] == "auth";
      assert OccursAt(lower, "auth", i + 2);
    }
  }

  /** The models state a failed load leaves. */
  function LoadFailure(e: Thrown): (r: ModelsState)
    ensures r.models == []
    ensures r.status == AuthRequired <==> LooksLikeAuthFailure(FailureMessage(e, UnknownError))
    ensures r.status != AuthRequired ==> r == ModelsState(LoadError, [], Some(FailureMessage(e, UnknownError)))
  {
    var errorMsg := FailureMessage(e, UnknownError);
    if LooksLikeAuthFailure(errorMsg) then ModelsState(AuthRequired, [], None)
    else ModelsState(LoadError, [], Some(errorMsg))
  }

  /** A thrown value that is not an Error is never an auth failure: its
      message is "Unknown error". */
  lemma NonErrorIsPlainError(text: string)
    ensures LoadFailure(NonError(text)) == ModelsState(LoadError, [], Some(UnknownError))
  {
    var lower := ToLower(UnknownError);
    assert forall i :: 0 <= i < |UnknownError| ==> UnknownError[i] != '4' && lower[i] != 'a';
    FirstCharAbsent(UnknownError, "401");
    FirstCharAbsent(UnknownError, "403");
    FirstCharAbsent(lower, "auth");
    UnauthorizedTestSubsumed(UnknownError);
  }

  /** The page's state. */
  class Settings {
    var modelsState: ModelsState
    var apiKeyValidation: ApiKeyValidation

    constructor ()
      ensures modelsState == ModelsState(ModelsIdle, [], None)
      ensures apiKeyValidation == ApiKeyValidation(ValidationIdle, None)
    {
      modelsState := ModelsState(ModelsIdle, [], None);
      apiKeyValidation := ApiKeyValidation(ValidationIdle, None);
    }

    /** `loadModels` up to its request: an empty base URL sets idle with no
        models and makes no request; otherwise the list is loading. */
    method BeginLoadModels(baseURL: string) returns (requested: bool)
      modifies this
      ensures requested <==> baseURL != ""
      ensures !requested ==> modelsState == ModelsState(ModelsIdle, [], None)
      ensures requested ==> modelsState == ModelsState(Loading, [], None)
      ensures !CanSelectModel(modelsState)
      ensures apiKeyValidation == old(apiKeyValidation)
    {
      if baseURL == "" {
        modelsState := ModelsState(ModelsIdle, [], None);
        return false;
      }
      modelsState := ModelsState(Loading, [], None);
      return true;
    }

    /** `loadModels` after its request: the sorted list, or the failure's
        classification. */
    method FinishLoadModels(outcome: FetchOutcome, le: Collation)
      modifies this
      ensures outcome.Fetched? ==> modelsState == ModelsState(Loaded, SortModels(outcome.models, le), None)
      ensures outcome.FetchFailed? ==> modelsState == LoadFailure(outcome.error)
      ensures CanSelectModel(modelsState) <==> outcome.Fetched? && |outcome.models| > 0
      ensures apiKeyValidation == old(apiKeyValidation)
    {
      SelectableAfterLoad(outcome, le);
      match outcome
      case Fetched(models) =>
        modelsState := ModelsState(Loaded, SortModels(models, le), None);
      case FetchFailed(e) =>
        var errorMsg := FailureMessage(e, UnknownError);
        if Includes(errorMsg, "401") || Includes(errorMsg, "403")
          || Includes(ToLower(errorMsg), "unauthorized") || Includes(ToLower(errorMsg), "auth")
        {
          modelsState := ModelsState(AuthRequired, [], None);
        } else {
          modelsState := ModelsState(LoadError, [], Some(errorMsg));
        }
    }

    /** `validateApiKey` up to its request: an empty key is idle, a key
        without the "sk-" prefix is invalid at once, and only a prefixed key
        is sent. */
    method BeginValidateApiKey(apiKey: string) returns (requested: bool)
      modifies this
      ensures requested <==> apiKey != "" && StartsWith(apiKey, KeyPrefix)
      ensures apiKey == "" ==> apiKeyValidation == ApiKeyValidation(ValidationIdle, None)
      ensures apiKey != "" && !StartsWith(apiKey, KeyPrefix) ==>
        apiKeyValidation == ApiKeyValidation(Invalid, Some(KeyPrefixError))
      ensures requested ==> apiKeyValidation == ApiKeyValidation(Validating, None)
      ensures modelsState == old(modelsState)
    {
      if apiKey == "" {
        apiKeyValidation := ApiKeyValidation(ValidationIdle, None);
        return false;
      }
      if !StartsWith(apiKey, KeyPrefix) {
        apiKeyValidation := ApiKeyValidation(Invalid, Some(KeyPrefixError));
        return false;
      }
      apiKeyValidation := ApiKeyValidation(Validating, None);
      return true;
    }

    /** `validateApiKey` after its request: a list makes the key valid and
        loads the sorted list; a failure makes it invalid with the
        message, leaving the models alone. */
    method FinishValidateApiKey(outcome: FetchOutcome, le: Collation)
      modifies this
      ensures outcome.Fetched? ==>
        && modelsState == ModelsState(Loaded, SortModels(outcome.models, le), None)
        && apiKeyValidation == ApiKeyValidation(Valid, None)
        && (CanSelectModel(modelsState) <==> |outcome.models| > 0)
      ensures outcome.FetchFailed? ==>
        && modelsState == old(modelsState)
        && apiKeyValidation == ApiKeyValidation(Invalid, Some(FailureMessage(outcome.error, ValidationFailed)))
    {
      SelectableAfterLoad(outcome, le);
      match outcome
      case Fetched(models) =>
        modelsState := ModelsState(Loaded, SortModels(models, le), None);
        apiKeyValidation := ApiKeyValidation(Valid, None);
      case FetchFailed(e) =>
        apiKeyValidation := ApiKeyValidation(Invalid, Some(FailureMessage(e, ValidationFailed)));
    }
  }
}
