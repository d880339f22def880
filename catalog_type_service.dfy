/** The data exchanged with the catalog-type service. The service itself
    (`getAll`, `create`, `update`, `deactivate`) is not part of this model: each
    call is recorded as a `Call` value and its outcome is supplied by the caller
    of the screen that awaits it. */
module CatalogTypeService {
  import opened Wrappers

  /** A catalog type as the service returns it. `active` and
      `numberOfProducts` are `None` when the field is missing from the payload. */
  datatype CatalogType = CatalogType(id: int, description: string, active: Option<bool>, numberOfProducts: Option<int>)

  /** The form's `formData`: what is sent to `create` and `update`. */
  datatype FormData = FormData(description: string, active: bool)

  /** One call made to the service. There is no hard-delete call: removal is
      always `deactivate`. */
  datatype Call =
    | GetAll
    | Create(data: FormData)
    | Update(id: int, data: FormData)
    | Deactivate(id: int)

  /** What `create`/`update` did: resolved with a payload (`None` for a falsy
      one) or threw an error whose `message` may be empty. */
  datatype SaveOutcome = Returned(payload: Option<CatalogType>) | SaveThrew(message: string)

  /** What `getAll` did. */
  datatype FetchOutcome = Fetched(items: seq<CatalogType>) | FetchThrew(message: string)

  /** What `deactivate` did. */
  datatype DeactivateOutcome = Deactivated | DeactivateThrew(message: string)
}
