/** The settings dialog: a working copy of the settings and the selected
    provider tab. Saving hands a normalised copy to the controller and closes. */
module SettingsModal {
  import opened Types
  import App

  /** The settings that saving hands over: the provider becomes the active tab,
      the model is kept exactly when the tab offers it and is otherwise reset to
      the tab's first model, and the keys pass through. */
  function NormaliseOnSave(local: AISettings, activeTab: Provider, catalog: Catalog): (saved: AISettings)
    requires catalog.Valid()
    ensures saved.provider == activeTab
    ensures saved.model in catalog.models(activeTab)
    ensures saved.apiKeys == local.apiKeys
    ensures saved.model == local.model <==> local.model in catalog.models(activeTab)
    ensures local.model !in catalog.models(activeTab) ==> saved.model == catalog.models(activeTab)[0]
  {
    local.(
      provider := activeTab,
      model := if local.model in catalog.models(activeTab) then local.model
               else catalog.models(activeTab)[0])
  }

  /** Saving twice on the same tab changes nothing more. */
  lemma NormaliseIdempotent(local: AISettings, activeTab: Provider, catalog: Catalog)
    requires catalog.Valid()
    ensures var once := NormaliseOnSave(local, activeTab, catalog);
      NormaliseOnSave(once, activeTab, catalog) == once
  {
  }

  /** Settings already consistent with the tab are saved unchanged. */
  lemma NormaliseKeepsConsistent(local: AISettings, catalog: Catalog)
    requires catalog.Valid() && local.model in catalog.models(local.provider)
    ensures NormaliseOnSave(local, local.provider, catalog) == local
  {
  }

  class SettingsModal {
    const catalog: Catalog
    var localSettings: AISettings
    var activeTab: Provider

    /** The dialog starts from the controller's settings, on their provider's tab. */
    constructor (catalog: Catalog, settings: AISettings)
      ensures this.catalog == catalog
      ensures localSettings == settings && activeTab == settings.provider
    {
      this.catalog := catalog;
      localSettings := settings;
      activeTab := settings.provider;
    }

    /** Clicking tab `p`: the tab changes and the working model becomes the
        tab's first model; keys and provider of the working copy stay. */
    method SelectTab(p: Provider)
      requires catalog.Valid()
      modifies this
      ensures activeTab == p
      ensures localSettings == old(localSettings).(model := catalog.models(p)[0])
      ensures localSettings.model in catalog.models(activeTab)
    {
      activeTab := p;
      localSettings := localSettings.(model := catalog.models(p)[0]);
    }

    /** Choosing a model in the list. */
    method SelectModel(m: string)
      modifies this
      ensures activeTab == old(activeTab)
      ensures localSettings == old(localSettings).(model := m)
    {
      localSettings := localSettings.(model := m);
    }

    /** Typing in the key field edits the active tab's key and no other. */
    method EditApiKey(key: string)
      modifies this
      ensures activeTab == old(activeTab)
      ensures localSettings.provider == old(localSettings).provider
      ensures localSettings.model == old(localSettings).model
      ensures localSettings.KeyFor(activeTab) == key
      ensures localSettings.apiKeys.Keys == old(localSettings).apiKeys.Keys + {activeTab}
      ensures forall q :: q != activeTab ==> localSettings.KeyFor(q) == old(localSettings).KeyFor(q)
    {
      localSettings := localSettings.(apiKeys := localSettings.apiKeys[activeTab := key]);
    }

    /** Save: hands the normalised settings to the controller once, then closes
        the dialog. */
    method HandleSave(app: App.App)
      requires catalog.Valid() && app.Valid()
      requires app.catalog == catalog
      modifies app
      ensures app.Valid()
      ensures app.settings == NormaliseOnSave(localSettings, activeTab, catalog)
      ensures app.storage
        == old(app.storage)[App.SettingsKey := App.SettingsBlob(App.Serialize(app.settings))]
      ensures !app.isSettingsOpen
      ensures app.data == old(app.data) && app.isLoading == old(app.isLoading)
      ensures app.error == old(app.error)
    {
      var saved := NormaliseOnSave(localSettings, activeTab, catalog);
      app.HandleSaveSettings(saved);
      app.CloseSettings();
    }
  }

  /** Switching to a tab and saving yields that provider with its first model,
      the working keys untouched. */
  lemma SwitchThenSave(local: AISettings, p: Provider, catalog: Catalog)
    requires catalog.Valid()
    ensures NormaliseOnSave(local.(model := catalog.models(p)[0]), p, catalog)
      == local.(provider := p, model := catalog.models(p)[0])
  {
  }
}
