/** The UI store: modal dialogs by id, named loading flags, the colour theme,
    the sidebar and a UI error message. Modal props are kept as a string map;
    their values are opaque here. */
module Ui {
  import opened Options

  datatype Theme = Light | Dark

  /** The other theme. */
  function Toggled(t: Theme): (r: Theme)
    ensures r != t
  {
    if t == Light then Dark else Light
  }

  /** Toggling twice restores the theme. */
  lemma ToggledInvolution(t: Theme)
    ensures Toggled(Toggled(t)) == t
  {
  }

  datatype ModalState = ModalState(isOpen: bool, component: Option<string>, props: map<string, string>)

  /** `modals[id]?.isOpen || false`: a modal never opened is closed. */
  predicate IsModalOpen(modals: map<string, ModalState>, id: string) {
    id in modals && modals[id].isOpen
  }

  /** `loadingStates[id] || false`: a flag never set is off. Modal and
      loading ids are taken never to be names every JavaScript object
      inherits (such as `constructor`), which the source would find on the
      prototype. */
  predicate IsLoading(loadingStates: map<string, bool>, id: string) {
    id in loadingStates && loadingStates[id]
  }

  class UiStore {
    var modals: map<string, ModalState>
    var loadingStates: map<string, bool>
    var theme: Theme
    var sidebarOpen: bool
    var error: Option<string>

    constructor ()
      ensures modals == map[] && loadingStates == map[] && theme == Light && sidebarOpen && error == None
    {
      modals := map[];
      loadingStates := map[];
      theme := Light;
      sidebarOpen := true;
      error := None;
    }

    /** Opens the modal with the component and props, replacing any earlier
        entry for the id; no other modal changes. */
    method OpenModal(modalId: string, component: string, props: map<string, string> := map[])
      modifies this
      ensures modals == old(modals)[modalId := ModalState(true, Some(component), props)]
      ensures IsModalOpen(modals, modalId)
      ensures forall id :: id != modalId ==> IsModalOpen(modals, id) == IsModalOpen(old(modals), id)
      ensures loadingStates == old(loadingStates) && theme == old(theme)
      ensures sidebarOpen == old(sidebarOpen) && error == old(error)
    {
      modals := modals[modalId := ModalState(true, Some(component), props)];
    }

    /** Closes a known modal, keeping its component and props; an unknown id
        creates no entry. */
    method CloseModal(modalId: string)
      modifies this
      ensures modalId in old(modals) ==> modals == old(modals)[modalId := old(modals)[modalId].(isOpen := false)]
      ensures modalId !in old(modals) ==> modals == old(modals)
      ensures !IsModalOpen(modals, modalId)
      ensures loadingStates == old(loadingStates) && theme == old(theme)
      ensures sidebarOpen == old(sidebarOpen) && error == old(error)
    {
      if modalId in modals {
        modals := modals[modalId := modals[modalId].(isOpen := false)];
      }
    }

    method SetLoading(loadingId: string, isLoading: bool)
      modifies this
      ensures loadingStates == old(loadingStates)[loadingId := isLoading]
      ensures IsLoading(loadingStates, loadingId) == isLoading
      ensures forall id :: id != loadingId ==> IsLoading(loadingStates, id) == IsLoading(old(loadingStates), id)
      ensures modals == old(modals) && theme == old(theme)
      ensures sidebarOpen == old(sidebarOpen) && error == old(error)
    {
      loadingStates := loadingStates[loadingId := isLoading];
    }

    method ToggleTheme()
      modifies this
      ensures theme == Toggled(old(theme))
      ensures modals == old(modals) && loadingStates == old(loadingStates)
      ensures sidebarOpen == old(sidebarOpen) && error == old(error)
    {
      theme := if theme == Light then Dark else Light;
    }

    method SetTheme(t: Theme)
      modifies this
      ensures theme == t
      ensures modals == old(modals) && loadingStates == old(loadingStates)
      ensures sidebarOpen == old(sidebarOpen) && error == old(error)
    {
      theme := t;
    }

    method ToggleSidebar()
      modifies this
      ensures sidebarOpen == !old(sidebarOpen)
      ensures modals == old(modals) && loadingStates == old(loadingStates)
      ensures theme == old(theme) && error == old(error)
    {
      sidebarOpen := !sidebarOpen;
    }

    method SetSidebarOpen(isOpen: bool)
      modifies this
      ensures sidebarOpen == isOpen
      ensures modals == old(modals) && loadingStates == old(loadingStates)
      ensures theme == old(theme) && error == old(error)
    {
      sidebarOpen := isOpen;
    }

    method ClearError()
      modifies this
      ensures error == None
      ensures modals == old(modals) && loadingStates == old(loadingStates)
      ensures theme == old(theme) && sidebarOpen == old(sidebarOpen)
    {
      error := None;
    }

    method SetError(e: string)
      modifies this
      ensures error == Some(e)
      ensures modals == old(modals) && loadingStates == old(loadingStates)
      ensures theme == old(theme) && sidebarOpen == old(sidebarOpen)
    {
      error := Some(e);
    }
  }

  /** Toggling the theme or the sidebar twice restores the whole store, and
      closing a modal after opening it leaves it closed with the component
      and props it was opened with. */
  method ToggleTwiceAndReopen(ui: UiStore, modalId: string, component: string, props: map<string, string>)
    modifies ui
    ensures ui.theme == old(ui.theme) && ui.sidebarOpen == old(ui.sidebarOpen)
    ensures ui.modals == old(ui.modals)[modalId := ModalState(false, Some(component), props)]
    ensures !IsModalOpen(ui.modals, modalId)
  {
    ui.ToggleTheme();
    ui.ToggleTheme();
    ui.ToggleSidebar();
    ui.ToggleSidebar();
    ui.OpenModal(modalId, component, props);
    ui.CloseModal(modalId);
  }
}
