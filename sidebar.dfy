/** The project sidebar's "new target" dialog and its default-template star. */
module Sidebar {
  import opened Wrappers
  import opened Text
  import opened Store

  /** `selectedTemplateId === "default" ? null : selectedTemplateId`: null
      exactly for the "Default System" entry, any other entry passed on as it is. */
  function TemplateChoice(selected: string): (r: Option<string>)
    ensures r == None <==> selected == "default"
    ensures r != None ==> r == Some(selected)
  {
    if selected == "default" then None else Some(selected)
  }

  /** The star button, `defaultTemplateId === t.id ? null : t.id`: the clicked
      template becomes the default unless it was, in which case there is none. */
  function StarToggle(defaultId: Option<string>, clicked: string): (r: Option<string>)
    ensures r == Some(clicked) <==> defaultId != Some(clicked)
    ensures r == None <==> defaultId == Some(clicked)
  {
    if defaultId == Some(clicked) then None else Some(clicked)
  }

  /**
   * Choosing "Default System" gives the built-in recon tree whatever the
   * default template is, although the entry then reads "Default System
   * (Custom Default Active)": the null it passes is a given template id, so
   * the custom default is never consulted.
   */
  lemma DefaultEntryIgnoresCustomDefault(templates: seq<Template>, defaultId: Option<string>, domain: string)
    ensures NewTargetGraph(templates, defaultId, Given(TemplateChoice("default")), domain) == Some(ReconGraph(domain))
  {
    assert TemplateChoice("default") == None;
    NullBypassesDefault(templates, defaultId, domain);
  }

  /** The sidebar's local dialog state over the shared store. */
  class NewTargetDialog {
    const store: AppStore
    var newDomain: string
    var selectedTemplateId: string
    var open: bool

    /** The dialog starts closed, with an empty domain and "Default System" selected. */
    constructor (store: AppStore)
      ensures this.store == store && newDomain == "" && selectedTemplateId == "default" && !open
    {
      this.store := store;
      newDomain := "";
      selectedTemplateId := "default";
      open := false;
    }

    /**
     * `handleCreate`, with `newId` for the id `addTarget` draws. A domain that
     * trims to nothing (one that is empty or only white space, by
     * `Text.TrimEmpty`) does nothing. Otherwise `addTarget` runs
     * once on the trimmed domain with the mapped template choice; if it does
     * not throw, the input is cleared and the dialog closed.
     */
    method HandleCreate(newId: string) returns (thrown: bool)
      modifies this, store
      ensures selectedTemplateId == old(selectedTemplateId)
      ensures Trim(old(newDomain)) == [] ==>
        && !thrown && newDomain == old(newDomain) && open == old(open)
        && store.targets == old(store.targets) && store.activeTargetId == old(store.activeTargetId)
      ensures Trim(old(newDomain)) != [] ==>
        var g := NewTargetGraph(old(store.templates), old(store.defaultTemplateId),
                                Given(TemplateChoice(old(selectedTemplateId))), Trim(old(newDomain)));
        && (thrown <==> g.None?)
        && (thrown ==> newDomain == old(newDomain) && open == old(open)
                       && store.targets == old(store.targets) && store.activeTargetId == old(store.activeTargetId))
        && (!thrown ==> newDomain == "" && !open
                        && store.targets == old(store.targets) + [Target(newId, Trim(old(newDomain)), g.value.0, g.value.1)]
                        && store.activeTargetId == Some(newId))
      ensures store.templates == old(store.templates) && store.defaultTemplateId == old(store.defaultTemplateId)
    {
      var domain := Trim(newDomain);
      if domain == [] {
        return false;
      }
      var templateId := TemplateChoice(selectedTemplateId);
      thrown := store.AddTarget(domain, Given(templateId), newId);
      if thrown {
        return;
      }
      newDomain := "";
      open := false;
    }
  }
}
