/**
 * UpdateCategoryRequest: the body of a category update request, a record
 * of a name, a description and a nullable "active" flag that defaults to
 * true when absent.
 */
module CategoryModels {
  import opened Wrappers

  datatype UpdateCategoryRequest = UpdateCategoryRequest(
    name: Option<string>,
    description: Option<string>,
    active: Option<bool>)
  {
    /** isActive(): a missing flag means active. */
    function IsActive(): (r: bool)
      ensures r <==> active != Some(false)
    {
      if active.Some? then active.value else true
    }
  }

  lemma MissingFlagMeansActive(name: Option<string>, description: Option<string>)
    ensures UpdateCategoryRequest(name, description, None).IsActive()
  {
  }

  lemma PresentFlagIsReturned(name: Option<string>, description: Option<string>, flag: bool)
    ensures UpdateCategoryRequest(name, description, Some(flag)).IsActive() == flag
  {
  }

  /** The flag alone decides isActive(). */
  lemma IsActiveIgnoresNameAndDescription(request: UpdateCategoryRequest,
                                          name: Option<string>, description: Option<string>)
    ensures UpdateCategoryRequest(name, description, request.active).IsActive() == request.IsActive()
  {
  }

  /** The record accessors return the components the record was built from. */
  lemma AccessorsReturnComponents(name: Option<string>, description: Option<string>, active: Option<bool>)
    ensures UpdateCategoryRequest(name, description, active).name == name
    ensures UpdateCategoryRequest(name, description, active).description == description
    ensures UpdateCategoryRequest(name, description, active).active == active
  {
  }
}
