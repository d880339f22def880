/** The catalog-type table screen (src/components/CatalogTypesList.jsx): the
    cached list, the loading flag, the error and success banners, the
    "recently updated" highlight, and the form's visibility. Every awaited
    service call takes its outcome as a parameter, and each 2000 ms / 3000 ms
    `setTimeout` is a timer handle whose expiry is an explicit event. */
module CatalogTypesList {
  import opened Wrappers
  import opened Text
  import opened CatalogTypeService

  const LoadFailed := "Error al cargar los tipos de catálogo"
  const DeleteFailed := "Error al eliminar el tipo de catálogo"
  const DeletedMessage := "Tipo de catálogo eliminado exitosamente"
  const UpdatedMessage := "Tipo de catálogo actualizado exitosamente"
  const CreatedMessage := "Tipo de catálogo creado exitosamente"

  /** `item.number_of_products > 0`; a missing count compares false. */
  predicate InUse(item: CatalogType) {
    item.numberOfProducts.Some? && item.numberOfProducts.value > 0
  }

  /** `item.number_of_products || 0`, the count the table shows. */
  function ProductCount(item: CatalogType): (n: int)
    ensures n > 0 <==> InUse(item)
    ensures item.numberOfProducts.None? ==> n == 0
    ensures item.numberOfProducts.Some? ==> n == item.numberOfProducts.value
  {
    match item.numberOfProducts
    case None => 0
    case Some(k) => k
  }

  const BlockedHead := "No se puede eliminar el tipo \""
  const BlockedMiddle := "\" porque está en uso por "
  const BlockedTail := " producto(s)."

  /** The error shown when removal is refused because the type is in use. */
  function BlockedMessage(item: CatalogType): string
    requires InUse(item)
  {
    BlockedHead + item.description + BlockedMiddle + NatToString(item.numberOfProducts.value) + BlockedTail
  }

  const PromptHead := "¿Estás seguro de eliminar el tipo de catálogo \""
  const PromptTail := "\"?\n\nEste tipo será eliminado permanentemente del sistema.\n\n¿Deseas continuar?"

  /** The `window.confirm` question asked before a removal. */
  function ConfirmPrompt(item: CatalogType): string {
    PromptHead + item.description + PromptTail
  }

  /** The removal policy of `handleDelete`, once the token is valid. */
  datatype Removal = Blocked(message: string) | Confirm(prompt: string)

  /** An item in use is refused with a message naming it and its count; any
      other item needs the user's confirmation, asked with its description. */
  function RemovalDecision(item: CatalogType): (r: Removal)
    ensures r.Blocked? <==> InUse(item)
    ensures r.Blocked? ==>
      Contains(r.message, item.description) && Contains(r.message, NatToString(item.numberOfProducts.value))
    ensures r.Confirm? ==> Contains(r.prompt, item.description)
  {
    if InUse(item) then
      var count := NatToString(item.numberOfProducts.value);
      ContainsMiddle(BlockedHead, item.description, BlockedMiddle + count + BlockedTail);
      assert BlockedHead + item.description + (BlockedMiddle + count + BlockedTail) == BlockedMessage(item);
      ContainsMiddle(BlockedHead + item.description + BlockedMiddle, count, BlockedTail);
      Blocked(BlockedMessage(item))
    else
      ContainsMiddle(PromptHead, item.description, PromptTail);
      Confirm(ConfirmPrompt(item))
  }

  /** What one `handleDelete` did. */
  datatype RemovalStatus = NotAuthorized | Refused | Cancelled | Removed | RemovalFailed

  /** The action button of a row: absent for an inactive type, otherwise
      labelled by the shown count. */
  datatype RowAction = NoAction | Action(caption: string)

  /** The label agrees with the removal policy: "Desactivar" exactly for the
      types that removal refuses, "Eliminar" for the others. */
  function RowActionFor(item: CatalogType): (a: RowAction)
    ensures a.Action? <==> item.active == Some(true)
    ensures a.Action? ==> (a.caption == "Desactivar" <==> RemovalDecision(item).Blocked?)
    ensures a.Action? ==> (a.caption == "Eliminar" <==> RemovalDecision(item).Confirm?)
  {
    if item.active != Some(true) then NoAction
    else if ProductCount(item) > 0 then Action("Desactivar")
    else Action("Eliminar")
  }

  /** `recentlyUpdated === item.id`: the row is highlighted. */
  predicate Highlighted(item: CatalogType, recentlyUpdated: Option<int>) {
    recentlyUpdated == Some(item.id)
  }

  /** `recentlyUpdated` is truthy: the highlight effect arms its timeout. */
  predicate HighlightArmed(recentlyUpdated: Option<int>) {
    recentlyUpdated.Some? && recentlyUpdated.value != 0
  }

  /** A timeout handle that changed is a fresh one: `setTimeout` never hands
      out again a handle that was cancelled or has fired. */
  predicate FreshHandle(before: Option<nat>, after: Option<nat>, next: nat) {
    after != before && after.Some? ==> after.value >= next
  }

  /** What the screen shows in place of the table body. */
  datatype Body = LoadingScreen | EmptyState | Rows(items: seq<CatalogType>)

  /** The loading screen while loading; otherwise the empty-state row for an
      empty list and one row per type for the rest, whatever the error is. */
  function BodyOf(loading: bool, items: seq<CatalogType>): (b: Body)
    ensures b == LoadingScreen <==> loading
    ensures b == EmptyState <==> !loading && items == []
    ensures b.Rows? ==> b.items == items && items != []
  {
    if loading then LoadingScreen else if items == [] then EmptyState else Rows(items)
  }

  /** The state the screen renders. */
  datatype ListState = ListState(
    catalogTypes: seq<CatalogType>,
    loading: bool,
    error: string,
    showForm: bool,
    editingItem: Option<CatalogType>,
    recentlyUpdated: Option<int>,
    successMessage: string)

  /** `loadCatalogTypes`: with an invalid token nothing changes; otherwise the
      fetched list replaces the whole cache and the error is cleared, or a
      failure keeps the cache and shows its message; loading ends either way. */
  function AfterLoad(s: ListState, tokenValid: bool, fetched: FetchOutcome): (r: ListState)
    ensures !tokenValid ==> r == s
    ensures tokenValid ==> !r.loading
    ensures tokenValid && fetched.Fetched? ==> r.catalogTypes == fetched.items && r.error == ""
    ensures tokenValid && fetched.FetchThrew? ==>
      r.catalogTypes == s.catalogTypes && r.error == MessageOr(fetched.message, LoadFailed)
    ensures r.showForm == s.showForm && r.editingItem == s.editingItem
    ensures r.recentlyUpdated == s.recentlyUpdated && r.successMessage == s.successMessage
  {
    if !tokenValid then s
    else match fetched
      case Fetched(items) => s.(catalogTypes := items, loading := false, error := "")
      case FetchThrew(m) => s.(loading := false, error := MessageOr(m, LoadFailed))
  }

  /** The calls `loadCatalogTypes` makes. */
  function LoadCalls(tokenValid: bool): seq<Call> {
    if tokenValid then [GetAll] else []
  }

  /** Everything one `handleDelete` produces: what happened, the question
      asked, the service calls made in order, and the new state. */
  datatype Deletion = Deletion(status: RemovalStatus, prompt: Option<string>, calls: seq<Call>, state: ListState)

  /** `handleDelete(item)` on the state `s`. `tokenValid` answers
      `validateToken()`, `confirmed` the `window.confirm`, `deactivation` is
      what `deactivate(item.id)` did, and `reloadTokenValid`/`fetched` drive
      the reload after a removal. */
  function DeleteOutcome(s: ListState, item: CatalogType, tokenValid: bool, confirmed: bool,
                         deactivation: DeactivateOutcome, reloadTokenValid: bool, fetched: FetchOutcome): (d: Deletion)
    // The question is asked exactly for a type that removal does not refuse.
    ensures d.prompt.Some? <==> tokenValid && !InUse(item)
    ensures d.prompt.Some? ==> d.prompt.value == ConfirmPrompt(item)
    // A type in use, or one whose removal was not confirmed, is never sent to the service.
    ensures d.calls != [] <==> tokenValid && !InUse(item) && confirmed
    ensures d.calls != [] ==> d.calls[0] == Deactivate(item.id)
    ensures d.status == NotAuthorized <==> !tokenValid
    ensures d.status == Refused <==> tokenValid && InUse(item)
    ensures d.status == Cancelled <==> tokenValid && !InUse(item) && !confirmed
    ensures d.status == Removed <==> tokenValid && !InUse(item) && confirmed && deactivation.Deactivated?
    ensures d.status == RemovalFailed ==> d.calls == [Deactivate(item.id)]
    ensures d.status == Removed ==> d.calls == [Deactivate(item.id)] + LoadCalls(reloadTokenValid)
    // The state is unchanged unless the user was answered; a refusal or a failed
    // call shows its message; only a removal reloads the list and announces
    // itself; the form and the highlight are never touched.
    ensures d.status == NotAuthorized || d.status == Cancelled ==> d.state == s
    ensures d.status == Refused ==> d.state == s.(error := BlockedMessage(item))
    ensures d.status == RemovalFailed ==> d.state == s.(error := MessageOr(deactivation.message, DeleteFailed))
    ensures d.status == Removed ==>
      d.state == AfterLoad(s.(error := ""), reloadTokenValid, fetched).(successMessage := DeletedMessage)
    ensures d.status != Removed ==> d.state.catalogTypes == s.catalogTypes && d.state.successMessage == s.successMessage
    ensures d.state.showForm == s.showForm && d.state.editingItem == s.editingItem
    ensures d.state.recentlyUpdated == s.recentlyUpdated
  {
    if !tokenValid then Deletion(NotAuthorized, None, [], s)
    else if InUse(item) then Deletion(Refused, None, [], s.(error := BlockedMessage(item)))
    else if !confirmed then Deletion(Cancelled, Some(ConfirmPrompt(item)), [], s)
    else match deactivation
      case DeactivateThrew(m) =>
        Deletion(RemovalFailed, Some(ConfirmPrompt(item)), [Deactivate(item.id)],
                 s.(error := MessageOr(m, DeleteFailed)))
      case Deactivated =>
        Deletion(Removed, Some(ConfirmPrompt(item)), [Deactivate(item.id)] + LoadCalls(reloadTokenValid),
                 AfterLoad(s.(error := ""), reloadTokenValid, fetched).(successMessage := DeletedMessage))
  }


  class CatalogTypesList {
    var catalogTypes: seq<CatalogType>
    var loading: bool
    var error: string
    var showForm: bool
    var editingItem: Option<CatalogType>
    var recentlyUpdated: Option<int>
    var successMessage: string
    /** The handle of the pending 2000 ms timeout that clears the highlight. */
    var highlightTimer: Option<nat>
    /** The handle of the pending 3000 ms timeout that clears the success message. */
    var messageTimer: Option<nat>
    /** The next handle `setTimeout` hands out. */
    var nextTimer: nat

    function State(): ListState
      reads this
    {
      ListState(catalogTypes, loading, error, showForm, editingItem, recentlyUpdated, successMessage)
    }

    /** A timeout is pending exactly while its value is shown (truthy), and
        every pending handle was handed out before `nextTimer`. */
    ghost predicate Valid()
      reads this
    {
      (highlightTimer.Some? <==> HighlightArmed(recentlyUpdated)) &&
      (messageTimer.Some? <==> successMessage != "") &&
      (highlightTimer.Some? ==> highlightTimer.value < nextTimer) &&
      (messageTimer.Some? ==> messageTimer.value < nextTimer)
    }

    /** The state on mount, before the mount effect's first load. */
    constructor ()
      ensures Valid()
      ensures State() == ListState([], true, "", false, None, None, "")
    {
      catalogTypes := [];
      loading := true;
      error := "";
      showForm := false;
      editingItem := None;
      recentlyUpdated := None;
      successMessage := "";
      highlightTimer := None;
      messageTimer := None;
      nextTimer := 0;
    }

    /** `setRecentlyUpdated` and the effect that depends on it: a changed value
        cancels the pending timeout and, when truthy, arms a fresh one. */
    method SetRecentlyUpdated(v: Option<int>)
      requires Valid()
      modifies this
      ensures Valid()
      ensures nextTimer >= old(nextTimer)
      ensures FreshHandle(old(highlightTimer), highlightTimer, old(nextTimer))
      ensures FreshHandle(old(messageTimer), messageTimer, old(nextTimer))
      ensures State() == old(State()).(recentlyUpdated := v)
      ensures messageTimer == old(messageTimer)
      ensures v == old(recentlyUpdated) ==> highlightTimer == old(highlightTimer)
      ensures v != old(recentlyUpdated) ==> highlightTimer != old(highlightTimer) || highlightTimer.None?
      ensures v != old(recentlyUpdated) && HighlightArmed(v) ==> highlightTimer == Some(old(nextTimer))
    {
      if v != recentlyUpdated {
        recentlyUpdated := v;
        if HighlightArmed(v) {
          highlightTimer := Some(nextTimer);
          nextTimer := nextTimer + 1;
        } else {
          highlightTimer := None;
        }
      }
    }

    /** `setSuccessMessage` and the effect that depends on it. */
    method SetSuccessMessage(m: string)
      requires Valid()
      modifies this
      ensures Valid()
      ensures nextTimer >= old(nextTimer)
      ensures FreshHandle(old(highlightTimer), highlightTimer, old(nextTimer))
      ensures FreshHandle(old(messageTimer), messageTimer, old(nextTimer))
      ensures State() == old(State()).(successMessage := m)
      ensures highlightTimer == old(highlightTimer)
      ensures m == old(successMessage) <==> messageTimer == old(messageTimer)
      ensures m != old(successMessage) && m != "" ==> messageTimer == Some(old(nextTimer))
    {
      if m != successMessage {
        successMessage := m;
        if m != "" {
          messageTimer := Some(nextTimer);
          nextTimer := nextTimer + 1;
        } else {
          messageTimer := None;
        }
      }
    }

    /** The 2000 ms timeout with handle `timer` fires: it clears the highlight
        if it is still the pending one; a cancelled handle changes nothing. */
    method ExpireHighlight(timer: nat)
      requires Valid()
      modifies this
      ensures Valid()
      ensures nextTimer >= old(nextTimer)
      ensures FreshHandle(old(highlightTimer), highlightTimer, old(nextTimer))
      ensures FreshHandle(old(messageTimer), messageTimer, old(nextTimer))
      ensures messageTimer == old(messageTimer)
      ensures old(highlightTimer) == Some(timer) ==>
        State() == old(State()).(recentlyUpdated := None) && highlightTimer.None?
      ensures old(highlightTimer) != Some(timer) ==>
        State() == old(State()) && highlightTimer == old(highlightTimer)
    {
      if highlightTimer == Some(timer) {
        SetRecentlyUpdated(None);
      }
    }

    /** The 3000 ms timeout with handle `timer` fires: it clears the success
        message if it is still the pending one. */
    method ExpireSuccessMessage(timer: nat)
      requires Valid()
      modifies this
      ensures Valid()
      ensures nextTimer >= old(nextTimer)
      ensures FreshHandle(old(highlightTimer), highlightTimer, old(nextTimer))
      ensures FreshHandle(old(messageTimer), messageTimer, old(nextTimer))
      ensures highlightTimer == old(highlightTimer)
      ensures old(messageTimer) == Some(timer) ==>
        State() == old(State()).(successMessage := "") && messageTimer.None?
      ensures old(messageTimer) != Some(timer) ==>
        State() == old(State()) && messageTimer == old(messageTimer)
    {
      if messageTimer == Some(timer) {
        SetSuccessMessage("");
      }
    }

    /** `loadCatalogTypes`: `tokenValid` is what `validateToken()` answers and
        `fetched` what `getAll()` does. */
    method LoadCatalogTypes(tokenValid: bool, fetched: FetchOutcome) returns (calls: seq<Call>)
      requires Valid()
      modifies this
      ensures Valid()
      ensures nextTimer >= old(nextTimer)
      ensures FreshHandle(old(highlightTimer), highlightTimer, old(nextTimer))
      ensures FreshHandle(old(messageTimer), messageTimer, old(nextTimer))
      ensures calls == LoadCalls(tokenValid)
      ensures State() == AfterLoad(old(State()), tokenValid, fetched)
      ensures highlightTimer == old(highlightTimer) && messageTimer == old(messageTimer)
    {
      calls := [];
      if !tokenValid {
        return;
      }
      loading := true;
      error := "";
      calls := [GetAll];
      match fetched {
        case Fetched(items) =>
          catalogTypes := items;
        case FetchThrew(m) =>
          error := MessageOr(m, LoadFailed);
      }
      loading := false;
    }

    /** `handleCreate`: open the form with no item. */
    method HandleCreate()
      requires Valid()
      modifies this
      ensures Valid()
      ensures nextTimer >= old(nextTimer)
      ensures FreshHandle(old(highlightTimer), highlightTimer, old(nextTimer))
      ensures FreshHandle(old(messageTimer), messageTimer, old(nextTimer))
      ensures State() == old(State()).(editingItem := None, showForm := true)
      ensures highlightTimer == old(highlightTimer) && messageTimer == old(messageTimer)
    {
      editingItem := None;
      showForm := true;
    }

    /** `handleEdit`: open the form on `item`. */
    method HandleEdit(item: CatalogType)
      requires Valid()
      modifies this
      ensures Valid()
      ensures nextTimer >= old(nextTimer)
      ensures FreshHandle(old(highlightTimer), highlightTimer, old(nextTimer))
      ensures FreshHandle(old(messageTimer), messageTimer, old(nextTimer))
      ensures State() == old(State()).(editingItem := Some(item), showForm := true)
      ensures highlightTimer == old(highlightTimer) && messageTimer == old(messageTimer)
    {
      editingItem := Some(item);
      showForm := true;
    }

    /** `handleFormCancel`: close the form and forget the item. */
    method HandleFormCancel()
      requires Valid()
      modifies this
      ensures Valid()
      ensures nextTimer >= old(nextTimer)
      ensures FreshHandle(old(highlightTimer), highlightTimer, old(nextTimer))
      ensures FreshHandle(old(messageTimer), messageTimer, old(nextTimer))
      ensures State() == old(State()).(showForm := false, editingItem := None)
      ensures highlightTimer == old(highlightTimer) && messageTimer == old(messageTimer)
    {
      showForm := false;
      editingItem := None;
    }

    /** The confirmed branch of `handleDelete`: clear the error, deactivate,
        then reload and announce the removal, or show the failure. */
    method RemoveConfirmed(item: CatalogType, deactivation: DeactivateOutcome, reloadTokenValid: bool, fetched: FetchOutcome)
      returns (status: RemovalStatus, calls: seq<Call>)
      requires Valid() && !InUse(item)
      modifies this
      ensures Valid()
      ensures nextTimer >= old(nextTimer)
      ensures FreshHandle(old(highlightTimer), highlightTimer, old(nextTimer))
      ensures FreshHandle(old(messageTimer), messageTimer, old(nextTimer))
      ensures highlightTimer == old(highlightTimer)
      ensures status != Removed ==> messageTimer == old(messageTimer)
      ensures status == Removed ==> (old(successMessage) == DeletedMessage <==> messageTimer == old(messageTimer))
      ensures Deletion(status, Some(ConfirmPrompt(item)), calls, State()) ==
        DeleteOutcome(old(State()), item, true, true, deactivation, reloadTokenValid, fetched)
    {
      error := "";
      calls := [Deactivate(item.id)];
      match deactivation {
        case DeactivateThrew(m) =>
          error := MessageOr(m, DeleteFailed);
          status := RemovalFailed;
        case Deactivated =>
          ghost var cleared := State();
          var reload := LoadCatalogTypes(reloadTokenValid, fetched);
          assert State() == AfterLoad(cleared, reloadTokenValid, fetched);
          calls := calls + reload;
          SetSuccessMessage(DeletedMessage);
          status := Removed;
      }
    }

    /** `handleDelete(item)`, proved against `DeleteOutcome`. */
    method HandleDelete(item: CatalogType, tokenValid: bool, confirmed: bool, deactivation: DeactivateOutcome,
                        reloadTokenValid: bool, fetched: FetchOutcome)
      returns (status: RemovalStatus, prompt: Option<string>, calls: seq<Call>)
      requires Valid()
      modifies this
      ensures Valid()
      ensures nextTimer >= old(nextTimer)
      ensures FreshHandle(old(highlightTimer), highlightTimer, old(nextTimer))
      ensures FreshHandle(old(messageTimer), messageTimer, old(nextTimer))
      ensures highlightTimer == old(highlightTimer)
      ensures status != Removed ==> messageTimer == old(messageTimer)
      ensures status == Removed ==> (old(successMessage) == DeletedMessage <==> messageTimer == old(messageTimer))
      ensures Deletion(status, prompt, calls, State()) ==
        DeleteOutcome(old(State()), item, tokenValid, confirmed, deactivation, reloadTokenValid, fetched)
    {
      prompt, calls := None, [];
      if !tokenValid {
        status := NotAuthorized;
        return;
      }
      if InUse(item) {
        error := BlockedMessage(item);
        status := Refused;
        return;
      }
      prompt := Some(ConfirmPrompt(item));
      if !confirmed {
        status := Cancelled;
        return;
      }
      status, calls := RemoveConfirmed(item, deactivation, reloadTokenValid, fetched);
    }

    /** The part of `handleFormSuccess` after the reload: highlight the saved
        id, show `message`, close the form and clear the error. */
    method AnnounceSaved(id: int, message: string)
      requires Valid()
      modifies this
      ensures Valid()
      ensures nextTimer >= old(nextTimer)
      ensures FreshHandle(old(highlightTimer), highlightTimer, old(nextTimer))
      ensures FreshHandle(old(messageTimer), messageTimer, old(nextTimer))
      ensures State() == old(State()).(recentlyUpdated := Some(id), successMessage := message,
        showForm := false, editingItem := None, error := "")
      ensures old(recentlyUpdated) == Some(id) ==> highlightTimer == old(highlightTimer)
      ensures old(recentlyUpdated) != Some(id) ==> highlightTimer != old(highlightTimer) || highlightTimer.None?
      ensures highlightTimer.None? <==> id == 0
      ensures old(successMessage) == message <==> messageTimer == old(messageTimer)
    {
      SetRecentlyUpdated(Some(id));
      SetSuccessMessage(message);
      showForm := false;
      editingItem := None;
      error := "";
    }

    /** `handleFormSuccess(savedItem, isEdit)`: reload, highlight the saved
        id, show the message for a create or an edit, close the form and clear
        the error. */
    method HandleFormSuccess(saved: CatalogType, isEdit: bool, tokenValid: bool, fetched: FetchOutcome)
      returns (calls: seq<Call>)
      requires Valid()
      modifies this
      ensures Valid()
      ensures nextTimer >= old(nextTimer)
      ensures FreshHandle(old(highlightTimer), highlightTimer, old(nextTimer))
      ensures FreshHandle(old(messageTimer), messageTimer, old(nextTimer))
      ensures calls == LoadCalls(tokenValid)
      ensures State() == AfterLoad(old(State()), tokenValid, fetched).(
        recentlyUpdated := Some(saved.id),
        successMessage := if isEdit then UpdatedMessage else CreatedMessage,
        showForm := false, editingItem := None, error := "")
      ensures old(recentlyUpdated) == Some(saved.id) ==> highlightTimer == old(highlightTimer)
      ensures old(recentlyUpdated) != Some(saved.id) ==> highlightTimer != old(highlightTimer) || highlightTimer.None?
      ensures Highlighted(saved, recentlyUpdated)
      ensures highlightTimer.None? <==> saved.id == 0
      ensures old(successMessage) == (if isEdit then UpdatedMessage else CreatedMessage) <==>
        messageTimer == old(messageTimer)
    {
      calls := LoadCatalogTypes(tokenValid, fetched);
      AnnounceSaved(saved.id, if isEdit then UpdatedMessage else CreatedMessage);
    }
  }
}
