/** The model selector shared by the chat composer (`components/chat/ChatInput.tsx`)
    and the home-page chat card (`components/ChatInterface.tsx`): the search
    filter over the model list, the provider-grouped dictionary built in
    `providerOrder`, and the popover's selection state. The model list and the
    provider order are parameters. */
module ModelPicker {
  import Text
  import Lists

  datatype AIModel = AIModel(id: string, name: string, provider: string)

  /** A model survives the search when its name or its provider contains it, ignoring case. */
  predicate ModelMatches(m: AIModel, search: string) {
    Text.ContainsIgnoringCase(m.name, search) || Text.ContainsIgnoringCase(m.provider, search)
  }

  /** `models.filter(...)`: the surviving models in their original order. */
  function FilteredModels(models: seq<AIModel>, search: string): (fs: seq<AIModel>)
    ensures forall m :: m in fs <==> m in models && ModelMatches(m, search)
    ensures forall m :: multiset(fs)[m] == if ModelMatches(m, search) then multiset(models)[m] else 0
    ensures Lists.IsSubsequence(fs, models)
    ensures search == "" ==> fs == models
  {
    var keep := (m: AIModel) => ModelMatches(m, search);
    Lists.FilterMembershipAll(models, keep);
    Lists.FilterMultiplicityAll(models, keep);
    Lists.FilterIsSubsequence(models, keep);
    Text.EmptyQueryMatchesAll();
    if search == "" then
      Lists.FilterKeepsAll(models, keep);
      Lists.Filter(models, keep)
    else Lists.Filter(models, keep)
  }

  /** `filtered.filter(m => m.provider === provider)`: one provider's models, in
      order, each as often as in `filtered`. */
  function ProviderGroup(filtered: seq<AIModel>, provider: string): (g: seq<AIModel>)
    ensures forall m :: m in g <==> m in filtered && m.provider == provider
    ensures forall m :: multiset(g)[m] == if m.provider == provider then multiset(filtered)[m] else 0
    ensures Lists.IsSubsequence(g, filtered)
  {
    var keep := (m: AIModel) => m.provider == provider;
    Lists.FilterMultiplicityAll(filtered, keep);
    Lists.FilterIsSubsequence(filtered, keep);
    Group(filtered, provider)
  }

  /** The same filter with only its membership fact, which is all the grouping loop needs. */
  function Group(filtered: seq<AIModel>, provider: string): (g: seq<AIModel>)
    ensures forall m :: m in g <==> m in filtered && m.provider == provider
  {
    var keep := (m: AIModel) => m.provider == provider;
    Lists.FilterMembershipAll(filtered, keep);
    Lists.Filter(filtered, keep)
  }

  predicate Distinct(keys: seq<string>) {
    forall i, j | 0 <= i < j < |keys| :: keys[i] != keys[j]
  }

  /** `filteredModelsByProvider`: the `grouped` dictionary, as its key order
      (`Object.entries` order, which is insertion order) and its contents.
      A provider is a key exactly when it is in `order` and has a surviving
      model; its entry is that provider's surviving models in their original
      order; the keys follow `order`; and there are no keys exactly when no
      surviving model has a provider in `order`. */
  method GroupByProvider(models: seq<AIModel>, order: seq<string>, search: string)
    returns (keys: seq<string>, grouped: map<string, seq<AIModel>>)
    ensures forall p :: p in grouped <==> p in order && ProviderGroup(FilteredModels(models, search), p) != []
    ensures forall p | p in grouped :: grouped[p] == ProviderGroup(FilteredModels(models, search), p)
    ensures forall p :: p in keys <==> p in grouped
    ensures Distinct(keys) && Lists.IsSubsequence(keys, order)
    ensures keys == [] <==> forall m | m in FilteredModels(models, search) :: m.provider !in order
  {
    var filtered := FilteredModels(models, search);
    keys := [];
    grouped := map[];
    for i := 0 to |order|
      invariant forall p :: p in grouped <==> p in order[..i] && Group(filtered, p) != []
      invariant forall p | p in grouped :: grouped[p] == Group(filtered, p)
      invariant forall p :: p in keys <==> p in grouped
      invariant Distinct(keys)
      invariant Lists.IsSubsequence(keys, order[..i])
    {
      var provider := order[i];
      var providerModels := Group(filtered, provider);
      assert order[..i + 1] == order[..i] + [provider];
      Lists.SubsequenceAppend(keys, order[..i], provider);
      if |providerModels| > 0 {
        if provider !in grouped {
          keys := keys + [provider];
        }
        grouped := grouped[provider := providerModels];
      }
    }
    assert order[..|order|] == order;
    assert forall p :: ProviderGroup(filtered, p) == Group(filtered, p);
    NoKeysIffNoneListed(filtered, order, keys, grouped);
  }

  /** The key list is empty exactly when the dictionary is, and so exactly when no
      surviving model has a listed provider. */
  lemma NoKeysIffNoneListed(filtered: seq<AIModel>, order: seq<string>, keys: seq<string>, grouped: map<string, seq<AIModel>>)
    requires forall p :: p in grouped <==> p in order && Group(filtered, p) != []
    requires forall p :: p in keys <==> p in grouped
    ensures keys == [] <==> forall m | m in filtered :: m.provider !in order
  {
    NoGroupsIffNoneListed(filtered, order, grouped);
    if keys != [] {
      assert keys[0] in grouped;
    }
    if grouped != map[] {
      var p :| p in grouped;
      assert p in keys;
    }
  }

  lemma NoGroupsIffNoneListed(filtered: seq<AIModel>, order: seq<string>, grouped: map<string, seq<AIModel>>)
    requires forall p :: p in grouped <==> p in order && Group(filtered, p) != []
    ensures grouped == map[] <==> forall m | m in filtered :: m.provider !in order
  {
    if m :| m in filtered && m.provider in order {
      assert m in Group(filtered, m.provider);
      assert m.provider in grouped;
    }
    if grouped != map[] {
      var p :| p in grouped;
      var m := Group(filtered, p)[0];
      assert m in Group(filtered, p);
    }
  }

  /** The popover's state. */
  class Picker {
    var selected: AIModel
    var open: bool
    var search: string

    /** The first model is selected, the popover closed, the search empty. */
    constructor(models: seq<AIModel>)
      requires |models| > 0
      ensures selected == models[0] && !open && search == ""
    {
      selected := models[0];
      open := false;
      search := "";
    }

    /** The popover's `onOpenChange`. */
    method SetOpen(isOpen: bool)
      modifies this`open
      ensures open == isOpen
    {
      open := isOpen;
    }

    /** The search input's `onChange`. */
    method SetSearch(text: string)
      modifies this`search
      ensures search == text
    {
      search := text;
    }

    /** `onCloseAutoFocus`: closing the popover clears the search. */
    method CloseAutoFocus()
      modifies this`search
      ensures search == ""
    {
      search := "";
    }

    /** Clicking a model: it becomes the selection, the popover closes and the search clears. */
    method Pick(m: AIModel)
      modifies this`selected, this`open, this`search
      ensures selected == m && !open && search == ""
    {
      selected := m;
      open := false;
      search := "";
    }

    /** "No models found": shown exactly when the grouping for the current search has no keys. */
    method NoModelsFound(models: seq<AIModel>, order: seq<string>) returns (shown: bool)
      ensures shown <==> forall m | m in FilteredModels(models, search) :: m.provider !in order
    {
      var keys, _ := GroupByProvider(models, order, search);
      shown := |keys| == 0;
    }
  }

  /** After picking, reopening the popover lists every model again, grouped by
      provider in `order`: the cleared search filters nothing out. */
  method PickThenReopen(models: seq<AIModel>, order: seq<string>, m: AIModel)
    returns (keys: seq<string>, grouped: map<string, seq<AIModel>>)
    requires |models| > 0
    ensures forall p | p in grouped :: grouped[p] == ProviderGroup(models, p)
    ensures forall p :: p in grouped <==> p in order && ProviderGroup(models, p) != []
  {
    var picker := new Picker(models);
    picker.SetOpen(true);
    picker.SetSearch(m.name);
    picker.Pick(m);
    picker.SetOpen(true);
    keys, grouped := GroupByProvider(models, order, picker.search);
  }
}
