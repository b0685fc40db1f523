/**
 * `Api\Controllers\PersonController`: the verb handlers of the person resource.
 *
 * `PersonModel` (database access) is not part of this model: each of its operations
 * is an oracle in `PersonModel`, and every handler reports, besides the array it
 * returns, the model operations it called, in order.
 */
module Controllers {
  import opened Wrappers
  import opened PhpValues

  /** The answers of the data-access object. `getLastId` is what it reports right after `addPerson`. */
  datatype PersonModel = PersonModel(
    getPerson: int -> Value,
    getPersons: (Value, Value, Value) -> Value,
    countPersons: Value -> Value,
    addPerson: PhpArray -> Value,
    getLastId: Value,
    updatePerson: (PhpArray, int) -> Value,
    deletePerson: int -> Value)

  /** One call on the model. */
  datatype ModelCall =
    | GetPerson(id: int)
    | GetPersons(searchValue: Value, pageSize: Value, offset: Value)
    | CountPersons(searchValue: Value)
    | AddPerson(data: PhpArray)
    | GetLastId
    | UpdatePerson(data: PhpArray, id: int)
    | DeletePerson(id: int)

  /** The list-query properties the base controller sets before a handler runs. */
  datatype Paging = Paging(searchValue: Value, pageSize: Value, offset: Value, page: Value)

  /** A handler's returned array and the model calls it made. */
  datatype Reply = Reply(body: PhpArray, calls: seq<ModelCall>)

  const RequiredFieldsMessage: string := "All fields are required"
  const SavedMessage: string := "Person successfully saved!"
  const SaveFailedMessage: string := "Something went wrong, Please try again"
  const UpdatedMessage: string := "Person successfully updated!"
  const UpdateFailedMessage: string := "Something went wrong, please try again"

  /** The keys of the paginated list answer. */
  const ListKeys: set<string> := {"data", "page", "pageSize", "total"}

  /** The record stored for a person: `name` from `nameKey`, `email`, and `gender` cast to int. */
  function PersonRecord(form: PhpArray, nameKey: string): (data: PhpArray)
    ensures data.Keys == {"name", "email", "gender"}
    ensures data["name"] == Index(form, nameKey) && data["email"] == Index(form, "email")
    ensures data["gender"].Int? && data["gender"].i == IntCast(Index(form, "gender"))
  {
    map["name" := Index(form, nameKey), "email" := Index(form, "email"), "gender" := Int(IntCast(Index(form, "gender")))]
  }

  /** The validation of `httpPut`: one of name, gender, email is PHP-empty. */
  predicate MissingRequiredField(form: PhpArray) {
    EmptyAt(form, "name") || EmptyAt(form, "gender") || EmptyAt(form, "email")
  }

  /** `httpGet(int ...$id)`: one person when an id is given, else a page of the list. */
  function HttpGet(model: PersonModel, paging: Paging, ids: seq<int>): (r: Reply)
    ensures |ids| > 0 ==> r.body == ArrayCast(model.getPerson(ids[0])) && r.calls == [GetPerson(ids[0])]
    ensures |ids| == 0 ==>
      && r.body.Keys == ListKeys
      && r.body["data"] == model.getPersons(paging.searchValue, paging.pageSize, paging.offset)
      && r.body["page"] == paging.page
      && r.body["pageSize"] == paging.pageSize
      && r.body["total"] == model.countPersons(paging.searchValue)
      && r.calls == [GetPersons(paging.searchValue, paging.pageSize, paging.offset), CountPersons(paging.searchValue)]
  {
    if |ids| > 0 then
      Reply(ArrayCast(model.getPerson(ids[0])), [GetPerson(ids[0])])
    else
      var data := model.getPersons(paging.searchValue, paging.pageSize, paging.offset);
      var total := model.countPersons(paging.searchValue);
      Reply(map["data" := data, "page" := paging.page, "pageSize" := paging.pageSize, "total" := total],
            [GetPersons(paging.searchValue, paging.pageSize, paging.offset), CountPersons(paging.searchValue)])
  }

  /** `httpPost(array $form)`: add the person; `success` is true whatever `addPerson` answered. */
  function HttpPost(model: PersonModel, form: PhpArray): (r: Reply)
    ensures r.body.Keys == {"success", "msg", "id"}
    ensures r.body["success"] == Bool(true)
    ensures r.body["id"] == model.getLastId
    ensures r.calls == [AddPerson(PersonRecord(form, "title")), GetLastId]
    ensures r.body["msg"] == Str(SavedMessage) <==> Truthy(model.addPerson(PersonRecord(form, "title")))
    ensures r.body["msg"] == Str(SavedMessage) || r.body["msg"] == Str(SaveFailedMessage)
  {
    var data := PersonRecord(form, "title");
    var msg := if Truthy(model.addPerson(data)) then SavedMessage else SaveFailedMessage;
    Reply(map["success" := Bool(true), "msg" := Str(msg), "id" := model.getLastId], [AddPerson(data), GetLastId])
  }

  /** `httpPut(array $form, int $id)`: reject a form missing a required field, else edit. */
  function HttpPut(model: PersonModel, form: PhpArray, id: int): (r: Reply)
    ensures "success" in r.body && "msg" in r.body
    ensures r.body["success"] == Bool(false) <==> MissingRequiredField(form)
    ensures MissingRequiredField(form) ==>
      r.body == map["success" := Bool(false), "msg" := Str(RequiredFieldsMessage)] && r.calls == []
    ensures !MissingRequiredField(form) ==> r == EditPerson(model, form, id)
  {
    if MissingRequiredField(form) then
      Reply(map["success" := Bool(false), "msg" := Str(RequiredFieldsMessage)], [])
    else
      EditPerson(model, form, id)
  }

  /** `_editPerson(array $form, int $id)`: update the person; `success` is true whatever `updatePerson` answered. */
  function EditPerson(model: PersonModel, form: PhpArray, id: int): (r: Reply)
    ensures r.body.Keys == {"success", "msg"}
    ensures r.body["success"] == Bool(true)
    ensures r.calls == [UpdatePerson(PersonRecord(form, "name"), id)]
    ensures r.body["msg"] == Str(UpdatedMessage) <==> Truthy(model.updatePerson(PersonRecord(form, "name"), id))
    ensures r.body["msg"] == Str(UpdatedMessage) || r.body["msg"] == Str(UpdateFailedMessage)
  {
    var data := PersonRecord(form, "name");
    var msg := if Truthy(model.updatePerson(data, id)) then UpdatedMessage else UpdateFailedMessage;
    Reply(map["success" := Bool(true), "msg" := Str(msg)], [UpdatePerson(data, id)])
  }

  /** `httpDelete(int $id)`: `success` is exactly what `deletePerson` returned. */
  function HttpDelete(model: PersonModel, id: int): (r: Reply)
    ensures r.body.Keys == {"success"} && r.body["success"] == model.deletePerson(id)
    ensures r.calls == [DeletePerson(id)]
  {
    Reply(map["success" := model.deletePerson(id)], [DeletePerson(id)])
  }

  /** Only the first id matters to `httpGet`. */
  lemma HttpGetUsesFirstIdOnly(model: PersonModel, paging: Paging, ids: seq<int>, others: seq<int>)
    requires |ids| > 0 && |others| > 0 && ids[0] == others[0]
    ensures HttpGet(model, paging, ids) == HttpGet(model, paging, others)
    ensures forall c :: c in HttpGet(model, paging, ids).calls ==> !c.GetPersons? && !c.CountPersons?
  {
  }

  /** A gender of 0 or "0" is PHP-empty, so `httpPut` rejects it and never calls `updatePerson`. */
  lemma HttpPutRejectsZeroGender(model: PersonModel, form: PhpArray, id: int)
    requires "gender" in form && (form["gender"] == Int(0) || form["gender"] == Str("0"))
    ensures HttpPut(model, form, id).body["success"] == Bool(false)
    ensures forall c :: c in HttpPut(model, form, id).calls ==> !c.UpdatePerson?
  {
  }

  /** An accepted `httpPut` updates the person with the same id and never reports `success: false`. */
  lemma HttpPutAcceptedUpdatesSameId(model: PersonModel, form: PhpArray, id: int)
    requires !MissingRequiredField(form)
    ensures var r := HttpPut(model, form, id);
            r.calls == [UpdatePerson(PersonRecord(form, "name"), id)] && r.body["success"] == Bool(true) && "id" !in r.body
  {
  }

  /** `httpPost` stores the `title` field as the name, not `name`. */
  lemma HttpPostNamesFromTitle(model: PersonModel, form: PhpArray)
    requires "title" in form && "name" in form && form["title"] != form["name"]
    ensures var r := HttpPost(model, form);
            r.calls[0].AddPerson? && r.calls[0].data["name"] == form["title"] && r.calls[0].data["name"] != form["name"]
  {
  }

  /** The controller object; `personModel` is set by `onInit`. */
  class PersonController {
    var personModel: Option<PersonModel>

    constructor ()
      ensures personModel.None?
    {
      personModel := None;
    }

    /** `onInit()`: store a new data-access object. */
    method OnInit(model: PersonModel)
      modifies this
      ensures personModel == Some(model)
    {
      personModel := Some(model);
    }
  }
}
