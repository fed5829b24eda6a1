/**
 * The application's shared state and its one update operation, `setState`.
 * `setState` receives either an object of keys, which it merges over the
 * previous state, or a function of the previous state that returns such an
 * object, which it calls and then merges in the same way.
 */
module AppContext {
  import opened Wrappers
  import opened Entities

  datatype AppState = AppState(
    colors: seq<string>,
    palettes: seq<Palette>,
    cookiesLoaded: bool,
    selectedPaletteId: string,
    initialColorsUpdated: bool,
    chatHistory: seq<ChatMessage>,
    suggestedColors: seq<NamedColor>,
    useLLM: bool,
    llmConfig: LlmConfig)

  /** The state the provider starts from. */
  const InitialState := AppState([], [], false, "", false, [], [], false, LlmConfig("", ""))

  /** An object passed to `setState`: `Some(v)` for a key it names with value `v`, `None` for a key it leaves out. */
  datatype Patch = Patch(
    colors: Option<seq<string>>,
    palettes: Option<seq<Palette>>,
    cookiesLoaded: Option<bool>,
    selectedPaletteId: Option<string>,
    initialColorsUpdated: Option<bool>,
    chatHistory: Option<seq<ChatMessage>>,
    suggestedColors: Option<seq<NamedColor>>,
    useLLM: Option<bool>,
    llmConfig: Option<LlmConfig>)

  /** `{}`. */
  const Empty := Patch(None, None, None, None, None, None, None, None, None)

  /** `{ ...s }`: every key, with the values of `s`. */
  function Spread(s: AppState): (p: Patch)
    ensures forall k :: Names(p, k)
  {
    Patch(Some(s.colors), Some(s.palettes), Some(s.cookiesLoaded), Some(s.selectedPaletteId),
          Some(s.initialColorsUpdated), Some(s.chatHistory), Some(s.suggestedColors),
          Some(s.useLLM), Some(s.llmConfig))
  }

  function Override<T>(current: T, o: Option<T>): (r: T)
    ensures o.Some? ==> r == o.value
    ensures o.None? ==> r == current
  {
    if o.Some? then o.value else current
  }

  /** `{ ...s, ...p }`. */
  function Merge(s: AppState, p: Patch): (t: AppState)
    ensures forall k :: Names(p, k) ==> HoldsPatched(t, p, k)
    ensures forall k :: !Names(p, k) ==> SameAt(t, s, k)
  {
    var t := AppState(
      Override(s.colors, p.colors),
      Override(s.palettes, p.palettes),
      Override(s.cookiesLoaded, p.cookiesLoaded),
      Override(s.selectedPaletteId, p.selectedPaletteId),
      Override(s.initialColorsUpdated, p.initialColorsUpdated),
      Override(s.chatHistory, p.chatHistory),
      Override(s.suggestedColors, p.suggestedColors),
      Override(s.useLLM, p.useLLM),
      Override(s.llmConfig, p.llmConfig));
    KeysOfMerge(s, p, t);
    t
  }

  /** Key by key, a state whose fields are the patch's where it has one and `s`'s elsewhere. */
  lemma KeysOfMerge(s: AppState, p: Patch, t: AppState)
    requires t.colors == Override(s.colors, p.colors) && t.palettes == Override(s.palettes, p.palettes)
    requires t.cookiesLoaded == Override(s.cookiesLoaded, p.cookiesLoaded)
    requires t.selectedPaletteId == Override(s.selectedPaletteId, p.selectedPaletteId)
    requires t.initialColorsUpdated == Override(s.initialColorsUpdated, p.initialColorsUpdated)
    requires t.chatHistory == Override(s.chatHistory, p.chatHistory)
    requires t.suggestedColors == Override(s.suggestedColors, p.suggestedColors)
    requires t.useLLM == Override(s.useLLM, p.useLLM) && t.llmConfig == Override(s.llmConfig, p.llmConfig)
    ensures forall k :: Names(p, k) ==> HoldsPatched(t, p, k)
    ensures forall k :: !Names(p, k) ==> SameAt(t, s, k)
  {
    forall k
      ensures Names(p, k) ==> HoldsPatched(t, p, k)
      ensures !Names(p, k) ==> SameAt(t, s, k)
    {
      match k
      case Colors =>
      case Palettes =>
      case CookiesLoaded =>
      case SelectedPaletteId =>
      case InitialColorsUpdated =>
      case ChatHistory =>
      case SuggestedColors =>
      case UseLlm =>
      case LlmConfigKey =>
    }
  }

  /** `{ ...p, ...q }`: the keys of both, those of `q` winning. */
  function Then(p: Patch, q: Patch): Patch {
    Patch(
      if q.colors.Some? then q.colors else p.colors,
      if q.palettes.Some? then q.palettes else p.palettes,
      if q.cookiesLoaded.Some? then q.cookiesLoaded else p.cookiesLoaded,
      if q.selectedPaletteId.Some? then q.selectedPaletteId else p.selectedPaletteId,
      if q.initialColorsUpdated.Some? then q.initialColorsUpdated else p.initialColorsUpdated,
      if q.chatHistory.Some? then q.chatHistory else p.chatHistory,
      if q.suggestedColors.Some? then q.suggestedColors else p.suggestedColors,
      if q.useLLM.Some? then q.useLLM else p.useLLM,
      if q.llmConfig.Some? then q.llmConfig else p.llmConfig)
  }

  /** The argument of `setState`. */
  datatype Updater =
    | Object(patch: Patch)
    | FromPrevious(f: AppState -> Patch)

  /** The object merged: the argument itself, or the updater's result on the previous state. */
  function PatchOf(s: AppState, u: Updater): Patch {
    match u
    case Object(p) => p
    case FromPrevious(f) => f(s)
  }

  /** The state `setState(u)` leaves behind when the previous state was `s`. */
  function Apply(s: AppState, u: Updater): (t: AppState)
    ensures forall k :: Names(PatchOf(s, u), k) ==> HoldsPatched(t, PatchOf(s, u), k)
    ensures forall k :: !Names(PatchOf(s, u), k) ==> SameAt(t, s, k)
  {
    match u
    case Object(p) => Merge(s, p)
    case FromPrevious(f) => Merge(s, f(s))
  }

  /** The keys of the state, to speak of one key at a time. */
  datatype Key =
    | Colors | Palettes | CookiesLoaded | SelectedPaletteId | InitialColorsUpdated
    | ChatHistory | SuggestedColors | UseLlm | LlmConfigKey

  /** The patch names key `k`. */
  predicate Names(p: Patch, k: Key) {
    match k
    case Colors => p.colors.Some?
    case Palettes => p.palettes.Some?
    case CookiesLoaded => p.cookiesLoaded.Some?
    case SelectedPaletteId => p.selectedPaletteId.Some?
    case InitialColorsUpdated => p.initialColorsUpdated.Some?
    case ChatHistory => p.chatHistory.Some?
    case SuggestedColors => p.suggestedColors.Some?
    case UseLlm => p.useLLM.Some?
    case LlmConfigKey => p.llmConfig.Some?
  }

  /** The two states hold the same value at key `k`. */
  predicate SameAt(s: AppState, t: AppState, k: Key) {
    match k
    case Colors => s.colors == t.colors
    case Palettes => s.palettes == t.palettes
    case CookiesLoaded => s.cookiesLoaded == t.cookiesLoaded
    case SelectedPaletteId => s.selectedPaletteId == t.selectedPaletteId
    case InitialColorsUpdated => s.initialColorsUpdated == t.initialColorsUpdated
    case ChatHistory => s.chatHistory == t.chatHistory
    case SuggestedColors => s.suggestedColors == t.suggestedColors
    case UseLlm => s.useLLM == t.useLLM
    case LlmConfigKey => s.llmConfig == t.llmConfig
  }

  /** The state holds at key `k` the value the patch gives it. */
  predicate HoldsPatched(s: AppState, p: Patch, k: Key)
    requires Names(p, k)
  {
    match k
    case Colors => s.colors == p.colors.value
    case Palettes => s.palettes == p.palettes.value
    case CookiesLoaded => s.cookiesLoaded == p.cookiesLoaded.value
    case SelectedPaletteId => s.selectedPaletteId == p.selectedPaletteId.value
    case InitialColorsUpdated => s.initialColorsUpdated == p.initialColorsUpdated.value
    case ChatHistory => s.chatHistory == p.chatHistory.value
    case SuggestedColors => s.suggestedColors == p.suggestedColors.value
    case UseLlm => s.useLLM == p.useLLM.value
    case LlmConfigKey => s.llmConfig == p.llmConfig.value
  }

  /** A merge sets every key the patch names to the patch's value and keeps every other key. */
  lemma MergeKeys(s: AppState, p: Patch, k: Key)
    ensures Names(p, k) ==> HoldsPatched(Merge(s, p), p, k)
    ensures !Names(p, k) ==> SameAt(Merge(s, p), s, k)
  {
  }

  /** States that agree at every key are equal. */
  lemma SameEverywhere(s: AppState, t: AppState)
    requires forall k :: SameAt(s, t, k)
    ensures s == t
  {
    assert SameAt(s, t, Colors) && SameAt(s, t, Palettes) && SameAt(s, t, CookiesLoaded);
    assert SameAt(s, t, SelectedPaletteId) && SameAt(s, t, InitialColorsUpdated) && SameAt(s, t, ChatHistory);
    assert SameAt(s, t, SuggestedColors) && SameAt(s, t, UseLlm) && SameAt(s, t, LlmConfigKey);
  }

  /** Merging the empty object changes nothing. */
  lemma MergeEmpty(s: AppState)
    ensures Merge(s, Empty) == s
  {
  }

  /** Merging the same object twice is merging it once. */
  lemma MergeIdempotent(s: AppState, p: Patch)
    ensures Merge(Merge(s, p), p) == Merge(s, p)
  {
  }

  /** Two merges in a row are one merge of the combined object. */
  lemma MergeThen(s: AppState, p: Patch, q: Patch)
    ensures Merge(Merge(s, p), q) == Merge(s, Then(p, q))
  {
  }

  /** An object naming every key gives the same state whatever came before. */
  lemma MergeFull(s: AppState, t: AppState, p: Patch)
    requires forall k :: Names(p, k)
    ensures Merge(s, p) == Merge(t, p)
  {
    forall k
      ensures SameAt(Merge(s, p), Merge(t, p), k)
    {
      MergeKeys(s, p, k);
      MergeKeys(t, p, k);
    }
    SameEverywhere(Merge(s, p), Merge(t, p));
  }

  /** Merging the spread of a state gives that state. */
  lemma MergeSpread(s: AppState, t: AppState)
    ensures Merge(s, Spread(t)) == t
  {
  }

  /** `{ ...prev, colors }` returned from an updater changes the colours and nothing else. */
  lemma SpreadWithColors(s: AppState, colors: seq<string>)
    ensures Apply(s, FromPrevious(prev => Spread(prev).(colors := Some(colors)))) == s.(colors := colors)
  {
  }

  /** The provider's state, changed only through `setState`. */
  class Store {
    var state: AppState

    constructor()
      ensures state == InitialState
    {
      state := InitialState;
    }

    /** `setState(updater)`. */
    method SetState(u: Updater)
      modifies this
      ensures state == Apply(old(state), u)
    {
      match u
      case Object(p) =>
        state := Merge(state, p);
      case FromPrevious(f) =>
        var patch := f(state);
        state := Merge(state, patch);
    }
  }
}
