/** The modal form that creates or edits one catalog type
    (src/components/CatalogTypeForm.jsx). The asynchronous submit is split at its
    `await`: `HandleSubmit` runs the guards and issues the service call,
    `CompleteSubmit` receives the call's outcome. */
module CatalogTypeForm {
  import opened Wrappers
  import opened Text
  import opened CatalogTypeService

  const DescriptionRequired := "La descripción es requerida"
  const DescriptionCharset := "La descripción solo puede contener letras, números, espacios, apostrofes y guiones"
  const SaveFailed := "Error al guardar el tipo de catálogo"

  /** One character of the class `[0-9A-Za-zÁÉÍÓÚÜÑáéíóúüñ' -]`. */
  predicate IsDescriptionChar(c: char) {
    ('0' <= c <= '9') || ('A' <= c <= 'Z') || ('a' <= c <= 'z') ||
    c in "ÁÉÍÓÚÜÑáéíóúüñ" || c == '\'' || c == ' ' || c == '-'
  }

  /** `/^[0-9A-Za-zÁÉÍÓÚÜÑáéíóúüñ' -]+$/.test(s)`: one or more characters, all of the class. */
  predicate MatchesDescriptionPattern(s: string) {
    |s| > 0 && forall i :: 0 <= i < |s| ==> IsDescriptionChar(s[i])
  }

  /** The descriptions a submit lets through, stated without `trim`: every
      character is of the class and at least one of them is not a space. */
  predicate AcceptableDescription(s: string) {
    (forall i :: 0 <= i < |s| ==> IsDescriptionChar(s[i])) &&
    exists i :: 0 <= i < |s| && s[i] != ' '
  }

  /** The local check of `handleSubmit`: the blank test runs on the trimmed text,
      the character test on the text as typed; `None` means the description
      passes both. */
  function DescriptionError(description: string): (r: Option<string>)
    ensures r.None? <==> AcceptableDescription(description)
    ensures r == Some(DescriptionRequired) <==> AllWhitespace(description)
    ensures r == Some(DescriptionCharset) <==>
      !AllWhitespace(description) && exists i :: 0 <= i < |description| && !IsDescriptionChar(description[i])
  {
    BlankIffAllWhitespace(description);
    if IsBlank(description) then Some(DescriptionRequired)
    else if !MatchesDescriptionPattern(description) then Some(DescriptionCharset)
    else
      assert exists i :: 0 <= i < |description| && !IsWhitespace(description[i]);
      None
  }

  /** A trailing tab passes the trimmed blank test but fails the character test,
      which sees the text as typed. */
  lemma CharsetCheckSeesUntrimmedText()
    ensures Trim("Combo\t") == "Combo"
    ensures DescriptionError("Combo\t") == Some(DescriptionCharset)
  {
  }

  /** The submit itself sets no length limit: a description of letters passes
      at any length (the 100-character bound is only the input's `maxLength`). */
  lemma AcceptedAtAnyLength(n: nat)
    ensures DescriptionError(seq(n + 1, _ => 'a')).None?
  {
  }

  /** The class lists its accented letters one by one; other Latin-1 letters,
      such as `ç` or `à`, are rejected. */
  lemma OtherAccentedLettersRejected()
    ensures DescriptionError("ç").Some? && DescriptionError("à").Some?
  {
  }

  /** The initial `formData`: the item's description or `''`, the item's
      `active` flag (`??` keeps an explicit `false`) or `true`. */
  function InitialFormData(item: Option<CatalogType>): (f: FormData)
    ensures item.None? ==> f == FormData("", true)
    ensures item.Some? ==> f.description == item.value.description
    ensures item.Some? && item.value.active.Some? ==> f.active == item.value.active.value
    ensures item.Some? && item.value.active.None? ==> f.active
  {
    match item
    case None => FormData("", true)
    case Some(it) => FormData(it.description, if it.active.Some? then it.active.value else true)
  }

  /** The one service call an accepted submit makes: `update(item.id, formData)`
      when editing, `create(formData)` otherwise. */
  function RequestFor(item: Option<CatalogType>, data: FormData): (c: Call)
    ensures c.Update? <==> item.Some?
    ensures c.Create? <==> item.None?
    ensures (c.Create? || c.Update?) && c.data == data
    ensures c.Update? ==> c.id == item.value.id
  {
    if item.Some? then Update(item.value.id, data) else Create(data)
  }

  /** What a finished submit reports: the arguments of `onSuccess`, or the error it shows. */
  datatype SubmitResult = Success(saved: CatalogType, isEdit: bool) | Failure(message: string)

  /** The entity reported when the service resolves without a payload:
      `{ ...item, ...formData }` when editing, `{ id: Date.now(), ...formData }`
      when creating. */
  function Provisional(item: Option<CatalogType>, data: FormData, now: int): CatalogType {
    match item
    case Some(it) => it.(description := data.description, active := Some(data.active))
    case None => CatalogType(now, data.description, Some(data.active), None)
  }

  /** The outcome of the awaited call, turned into `onSuccess(savedItem, isEdit)`
      or into the error shown in the form. */
  function ResultOf(item: Option<CatalogType>, data: FormData, outcome: SaveOutcome, now: int): (r: SubmitResult)
    ensures r.Success? <==> outcome.Returned?
    ensures r.Success? ==> r.isEdit == item.Some?
    ensures outcome.Returned? && outcome.payload.Some? ==> r.saved == outcome.payload.value
    ensures outcome == Returned(None) ==>
      r.saved.description == data.description && r.saved.active == Some(data.active) &&
      (item.Some? ==> r.saved.id == item.value.id && r.saved.numberOfProducts == item.value.numberOfProducts) &&
      (item.None? ==> r.saved.id == now && r.saved.numberOfProducts.None?)
    ensures outcome.SaveThrew? ==> r.message == MessageOr(outcome.message, SaveFailed)
  {
    match outcome
    case Returned(Some(e)) => Success(e, item.Some?)
    case Returned(None) => Success(Provisional(item, data, now), item.Some?)
    case SaveThrew(m) => Failure(MessageOr(m, SaveFailed))
  }

  /** An edit of one input: the description text or the `active` checkbox. */
  datatype FieldChange = DescriptionTyped(value: string) | ActiveToggled(checked: bool)

  function ApplyChange(data: FormData, change: FieldChange): FormData {
    match change
    case DescriptionTyped(v) => data.(description := v)
    case ActiveToggled(b) => data.(active := b)
  }

  datatype Key = Enter | Escape | OtherKey

  class CatalogTypeForm {
    /** The `item` prop: the catalog type being edited, `None` when creating. */
    const item: Option<CatalogType>
    var formData: FormData
    var error: string
    var isSubmitting: bool
    /** The form data the in-flight call was issued with (the submit's closure
        keeps it even if the inputs change meanwhile). */
    var pending: Option<FormData>

    ghost predicate Valid()
      reads this
    {
      isSubmitting <==> pending.Some?
    }

    constructor (item: Option<CatalogType>)
      ensures Valid()
      ensures this.item == item && formData == InitialFormData(item)
      ensures error == "" && !isSubmitting && pending.None?
    {
      this.item := item;
      formData := InitialFormData(item);
      error := "";
      isSubmitting := false;
      pending := None;
    }

    /** `handleChange`: overwrite the edited field and clear the error. */
    method HandleChange(change: FieldChange)
      requires Valid()
      modifies this
      ensures Valid()
      ensures formData == ApplyChange(old(formData), change) && error == ""
      ensures isSubmitting == old(isSubmitting) && pending == old(pending)
    {
      formData := ApplyChange(formData, change);
      if error != "" {
        error := "";
      }
    }

    /** `handleSubmit` up to its `await`. `tokenValid` is what `validateToken()`
        answers; `tokenChecked` says whether it was asked. The call issued, if
        any, is returned. */
    method HandleSubmit(tokenValid: bool) returns (tokenChecked: bool, call: Option<Call>)
      requires Valid()
      modifies this
      ensures Valid()
      ensures formData == old(formData)
      ensures tokenChecked == !old(isSubmitting)
      ensures old(isSubmitting) || !tokenValid ==>
        call.None? && error == old(error) && isSubmitting == old(isSubmitting) && pending == old(pending)
      ensures !old(isSubmitting) && tokenValid && DescriptionError(formData.description).Some? ==>
        call.None? && error == DescriptionError(formData.description).value && !isSubmitting
      ensures !old(isSubmitting) && tokenValid && DescriptionError(formData.description).None? ==>
        call == Some(RequestFor(item, formData)) && error == "" && isSubmitting && pending == Some(formData)
    {
      tokenChecked := false;
      call := None;
      if isSubmitting {
        return;
      }
      tokenChecked := true;
      if !tokenValid {
        return;
      }
      var problem := DescriptionError(formData.description);
      if problem.Some? {
        error := problem.value;
        return;
      }
      isSubmitting := true;
      error := "";
      pending := Some(formData);
      call := Some(RequestFor(item, formData));
    }

    /** `handleSubmit` after its `await`: `outcome` is what the call did and
        `now` is `Date.now()`. The result is the `onSuccess` call or the error. */
    method CompleteSubmit(outcome: SaveOutcome, now: int) returns (result: SubmitResult)
      requires Valid() && isSubmitting
      modifies this
      ensures Valid()
      ensures result == ResultOf(item, old(pending).value, outcome, now)
      ensures error == (if result.Failure? then result.message else old(error))
      ensures !isSubmitting && formData == old(formData)
    {
      result := ResultOf(item, pending.value, outcome, now);
      if result.Failure? {
        error := result.message;
      }
      isSubmitting := false;
      pending := None;
    }

    /** `handleKeyPress`: Enter submits unless a submit is in flight; Escape
        asks the list to close the form (`cancelled`). */
    method HandleKeyPress(key: Key, tokenValid: bool) returns (tokenChecked: bool, call: Option<Call>, cancelled: bool)
      requires Valid()
      modifies this
      ensures Valid()
      ensures cancelled <==> key == Escape
      ensures key != Enter || old(isSubmitting) ==>
        !tokenChecked && call.None? && formData == old(formData) && error == old(error) &&
        isSubmitting == old(isSubmitting) && pending == old(pending)
      ensures key == Enter && !old(isSubmitting) ==> tokenChecked && formData == old(formData)
      ensures key == Enter && !old(isSubmitting) && !tokenValid ==>
        call.None? && error == old(error) && !isSubmitting && pending == old(pending)
      ensures key == Enter && !old(isSubmitting) && tokenValid && DescriptionError(formData.description).Some? ==>
        call.None? && error == DescriptionError(formData.description).value && !isSubmitting
      ensures key == Enter && !old(isSubmitting) && tokenValid && DescriptionError(formData.description).None? ==>
        call == Some(RequestFor(item, formData)) && error == "" && isSubmitting && pending == Some(formData)
    {
      tokenChecked, call := false, None;
      if key == Enter && !isSubmitting {
        tokenChecked, call := HandleSubmit(tokenValid);
      }
      cancelled := key == Escape;
    }
  }
}
