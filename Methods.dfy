/** The named methods of the client object. Each one builds an argument array of
    fixed length and fixed order, replaces every optional argument that is falsy
    by its default with `||`, and hands the array to `call` under its own name. */
module Methods {
  import opened JsValues
  import opened Validator
  import opened Vision6

  /** One position of a method's argument array: passed as given, or
      `argument || default`. */
  datatype Param = Required | Default(value: JsValue)

  /** The argument array a parameter list makes of the caller's arguments: the
      same length as the list; at each position the caller's argument when it is
      required or truthy, and the position's default when it is optional and falsy. */
  function Shape(params: seq<Param>, inputs: seq<JsValue>): (args: seq<JsValue>)
    requires |inputs| == |params|
    ensures |args| == |params|
    ensures forall i :: 0 <= i < |params| && (params[i].Required? || Truthy(inputs[i])) ==> args[i] == inputs[i]
    ensures forall i :: 0 <= i < |params| && params[i].Default? && !Truthy(inputs[i]) ==> args[i] == params[i].value
  {
    seq(|params|, i requires 0 <= i < |params| => Fill(params[i], inputs[i]))
  }

  /** The argument one position receives. */
  function Fill(param: Param, input: JsValue): JsValue
  {
    if param.Required? then input else Or(input, param.value)
  }

  const AddFieldParams: seq<Param> := [Required, Required]

  /** `addField(list_id, field_details)`. */
  function AddField(listId: JsValue, fieldDetails: JsValue): (call: Invocation)
    ensures call == Invocation("addField", Some(Shape(AddFieldParams, [listId, fieldDetails])))
  {
    var args := [listId, fieldDetails];
    assert args == Shape(AddFieldParams, [listId, fieldDetails]);
    Invocation("addField", Some(args))
  }

  const AddListParams: seq<Param> := [Required]

  /** `addList(list_details)`. */
  function AddList(listDetails: JsValue): (call: Invocation)
    ensures call == Invocation("addList", Some(Shape(AddListParams, [listDetails])))
  {
    var args := [listDetails];
    assert args == Shape(AddListParams, [listDetails]);
    Invocation("addList", Some(args))
  }

  const ClearListParams: seq<Param> := [Required]

  /** `clearList(list_id)`. */
  function ClearList(listId: JsValue): (call: Invocation)
    ensures call == Invocation("clearList", Some(Shape(ClearListParams, [listId])))
  {
    var args := [listId];
    assert args == Shape(ClearListParams, [listId]);
    Invocation("clearList", Some(args))
  }

  const CountFieldsParams: seq<Param> := [Required, Default(Arr([]))]

  /** `countFields(list_id, search_criteria)`. */
  function CountFields(listId: JsValue, searchCriteria: JsValue): (call: Invocation)
    ensures call == Invocation("countFields", Some(Shape(CountFieldsParams, [listId, searchCriteria])))
  {
    var args := [listId, Or(searchCriteria, Arr([]))];
    assert args == Shape(CountFieldsParams, [listId, searchCriteria]);
    Invocation("countFields", Some(args))
  }

  const CountListsParams: seq<Param> := [Default(Arr([]))]

  /** `countLists(search_criteria)`. */
  function CountLists(searchCriteria: JsValue): (call: Invocation)
    ensures call == Invocation("countLists", Some(Shape(CountListsParams, [searchCriteria])))
  {
    var args := [Or(searchCriteria, Arr([]))];
    assert args == Shape(CountListsParams, [searchCriteria]);
    Invocation("countLists", Some(args))
  }

  const DeleteFieldParams: seq<Param> := [Required, Required]

  /** `deleteField(list_id, field_id)`. */
  function DeleteField(listId: JsValue, fieldId: JsValue): (call: Invocation)
    ensures call == Invocation("deleteField", Some(Shape(DeleteFieldParams, [listId, fieldId])))
  {
    var args := [listId, fieldId];
    assert args == Shape(DeleteFieldParams, [listId, fieldId]);
    Invocation("deleteField", Some(args))
  }

  const DeleteListParams: seq<Param> := [Required]

  /** `deleteList(list_id)`. */
  function DeleteList(listId: JsValue): (call: Invocation)
    ensures call == Invocation("deleteList", Some(Shape(DeleteListParams, [listId])))
  {
    var args := [listId];
    assert args == Shape(DeleteListParams, [listId]);
    Invocation("deleteList", Some(args))
  }

  const EditFieldParams: seq<Param> := [Required, Required]

  /** `editField(list_id, field_details)`. */
  function EditField(listId: JsValue, fieldDetails: JsValue): (call: Invocation)
    ensures call == Invocation("editField", Some(Shape(EditFieldParams, [listId, fieldDetails])))
  {
    var args := [listId, fieldDetails];
    assert args == Shape(EditFieldParams, [listId, fieldDetails]);
    Invocation("editField", Some(args))
  }

  const EditListParams: seq<Param> := [Required]

  /** `editList(list_details)`. */
  function EditList(listDetails: JsValue): (call: Invocation)
    ensures call == Invocation("editList", Some(Shape(EditListParams, [listDetails])))
  {
    var args := [listDetails];
    assert args == Shape(EditListParams, [listDetails]);
    Invocation("editList", Some(args))
  }

  const GetFieldByIdParams: seq<Param> := [Required, Required]

  /** `getFieldById(list_id, field_id)`. */
  function GetFieldById(listId: JsValue, fieldId: JsValue): (call: Invocation)
    ensures call == Invocation("getFieldById", Some(Shape(GetFieldByIdParams, [listId, fieldId])))
  {
    var args := [listId, fieldId];
    assert args == Shape(GetFieldByIdParams, [listId, fieldId]);
    Invocation("getFieldById", Some(args))
  }

  const GetFolderIdForFieldParams: seq<Param> := [Required, Required]

  /** `getFolderIdForField(list_id, field_id)`. */
  function GetFolderIdForField(listId: JsValue, fieldId: JsValue): (call: Invocation)
    ensures call == Invocation("getFolderIdForField", Some(Shape(GetFolderIdForFieldParams, [listId, fieldId])))
  {
    var args := [listId, fieldId];
    assert args == Shape(GetFolderIdForFieldParams, [listId, fieldId]);
    Invocation("getFolderIdForField", Some(args))
  }

  const GetListByIdParams: seq<Param> := [Required]

  /** `getListById(list_id)`. */
  function GetListById(listId: JsValue): (call: Invocation)
    ensures call == Invocation("getListById", Some(Shape(GetListByIdParams, [listId])))
  {
    var args := [listId];
    assert args == Shape(GetListByIdParams, [listId]);
    Invocation("getListById", Some(args))
  }

  /** `getTimezoneList()`: no argument array at all. */
  function GetTimezoneList(): (call: Invocation)
    ensures call.methodName == "getTimezoneList" && call.options.None?
  {
    Invocation("getTimezoneList", None)
  }

  const SearchFieldsParams: seq<Param> := [Required, Default(Arr([])), Default(Num(0)), Default(Num(0)), Default(Str("name")), Default(Str("ASC"))]

  /** `searchFields(list_id, search_criteria, limit, offset, sort_by, sort_order)`. */
  function SearchFields(listId: JsValue, searchCriteria: JsValue, limit: JsValue, offset: JsValue, sortBy: JsValue, sortOrder: JsValue): (call: Invocation)
    ensures call == Invocation("searchFields", Some(Shape(SearchFieldsParams, [listId, searchCriteria, limit, offset, sortBy, sortOrder])))
  {
    var args := [listId, Or(searchCriteria, Arr([])), Or(limit, Num(0)), Or(offset, Num(0)), Or(sortBy, Str("name")), Or(sortOrder, Str("ASC"))];
    assert args == Shape(SearchFieldsParams, [listId, searchCriteria, limit, offset, sortBy, sortOrder]);
    Invocation("searchFields", Some(args))
  }

  const SearchListsParams: seq<Param> := [Default(Arr([])), Default(Num(100)), Default(Num(0)), Default(Str("name")), Default(Str("ASC"))]

  /** `searchLists(criteria, limit, offset, sort_by, sort_order)`. */
  function SearchLists(criteria: JsValue, limit: JsValue, offset: JsValue, sortBy: JsValue, sortOrder: JsValue): (call: Invocation)
    ensures call == Invocation("searchLists", Some(Shape(SearchListsParams, [criteria, limit, offset, sortBy, sortOrder])))
  {
    var args := [Or(criteria, Arr([])), Or(limit, Num(100)), Or(offset, Num(0)), Or(sortBy, Str("name")), Or(sortOrder, Str("ASC"))];
    assert args == Shape(SearchListsParams, [criteria, limit, offset, sortBy, sortOrder]);
    Invocation("searchLists", Some(args))
  }

  const SetFieldFolderIdParams: seq<Param> := [Required, Required, Required]

  /** `setFieldFolderId(list_id, field_id, folder_id)`. */
  function SetFieldFolderId(listId: JsValue, fieldId: JsValue, folderId: JsValue): (call: Invocation)
    ensures call == Invocation("setFieldFolderId", Some(Shape(SetFieldFolderIdParams, [listId, fieldId, folderId])))
  {
    var args := [listId, fieldId, folderId];
    assert args == Shape(SetFieldFolderIdParams, [listId, fieldId, folderId]);
    Invocation("setFieldFolderId", Some(args))
  }

  const AddContactsParams: seq<Param> := [Required, Required, Default(Bool(false)), Default(Num(0))]

  /** `addContacts(list_id, contacts, overwrite, remove_unsubscribers)`. */
  function AddContacts(listId: JsValue, contacts: JsValue, overwrite: JsValue, removeUnsubscribers: JsValue): (call: Invocation)
    ensures call == Invocation("addContacts", Some(Shape(AddContactsParams, [listId, contacts, overwrite, removeUnsubscribers])))
  {
    var args := [listId, contacts, Or(overwrite, Bool(false)), Or(removeUnsubscribers, Num(0))];
    assert args == Shape(AddContactsParams, [listId, contacts, overwrite, removeUnsubscribers]);
    Invocation("addContacts", Some(args))
  }

  const ConfirmContactParams: seq<Param> := [Required, Required]

  /** `confirmContact(list_id, contact_id)`. */
  function ConfirmContact(listId: JsValue, contactId: JsValue): (call: Invocation)
    ensures call == Invocation("confirmContact", Some(Shape(ConfirmContactParams, [listId, contactId])))
  {
    var args := [listId, contactId];
    assert args == Shape(ConfirmContactParams, [listId, contactId]);
    Invocation("confirmContact", Some(args))
  }

  const CountContactsParams: seq<Param> := [Required, Default(Arr([]))]

  /** `countContacts(list_id, search_criteria)`. */
  function CountContacts(listId: JsValue, searchCriteria: JsValue): (call: Invocation)
    ensures call == Invocation("countContacts", Some(Shape(CountContactsParams, [listId, searchCriteria])))
  {
    var args := [listId, Or(searchCriteria, Arr([]))];
    assert args == Shape(CountContactsParams, [listId, searchCriteria]);
    Invocation("countContacts", Some(args))
  }

  const CountPreviousUnsubscribersParams: seq<Param> := [Default(Num(0)), Default(Arr([]))]

  /** `countPreviousUnsubscribers(list_id, criteria)`. */
  function CountPreviousUnsubscribers(listId: JsValue, criteria: JsValue): (call: Invocation)
    ensures call == Invocation("countPreviousUnsubscribers", Some(Shape(CountPreviousUnsubscribersParams, [listId, criteria])))
  {
    var args := [Or(listId, Num(0)), Or(criteria, Arr([]))];
    assert args == Shape(CountPreviousUnsubscribersParams, [listId, criteria]);
    Invocation("countPreviousUnsubscribers", Some(args))
  }

  const DeactivateContactParams: seq<Param> := [Required, Required]

  /** `deactivateContact(list_id, contact_id)`. */
  function DeactivateContact(listId: JsValue, contactId: JsValue): (call: Invocation)
    ensures call == Invocation("deactivateContact", Some(Shape(DeactivateContactParams, [listId, contactId])))
  {
    var args := [listId, contactId];
    assert args == Shape(DeactivateContactParams, [listId, contactId]);
    Invocation("deactivateContact", Some(args))
  }

  const DeleteContactsParams: seq<Param> := [Required, Required, Default(Arr([])), Default(Num(0)), Default(Num(0)), Default(Null), Default(Null)]

  /** `deleteContacts(list_id, contact_ids, search_criteria, limit, offset, sort_by, sort_order)`. */
  function DeleteContacts(listId: JsValue, contactIds: JsValue, searchCriteria: JsValue, limit: JsValue, offset: JsValue, sortBy: JsValue, sortOrder: JsValue): (call: Invocation)
    ensures call == Invocation("deleteContacts", Some(Shape(DeleteContactsParams, [listId, contactIds, searchCriteria, limit, offset, sortBy, sortOrder])))
  {
    var args := [listId, contactIds, Or(searchCriteria, Arr([])), Or(limit, Num(0)), Or(offset, Num(0)), Or(sortBy, Null), Or(sortOrder, Null)];
    assert args == Shape(DeleteContactsParams, [listId, contactIds, searchCriteria, limit, offset, sortBy, sortOrder]);
    Invocation("deleteContacts", Some(args))
  }

  const EditContactsParams: seq<Param> := [Required, Required, Default(Bool(false))]

  /** `editContacts(list_id, contacts, trigger_update_profile)`. */
  function EditContacts(listId: JsValue, contacts: JsValue, triggerUpdateProfile: JsValue): (call: Invocation)
    ensures call == Invocation("editContacts", Some(Shape(EditContactsParams, [listId, contacts, triggerUpdateProfile])))
  {
    var args := [listId, contacts, Or(triggerUpdateProfile, Bool(false))];
    assert args == Shape(EditContactsParams, [listId, contacts, triggerUpdateProfile]);
    Invocation("editContacts", Some(args))
  }

  const GetContactByIdParams: seq<Param> := [Required, Required, Default(Arr([Str("all")]))]

  /** `getContactById(list_id, contact_id, returned_fields)`. */
  function GetContactById(listId: JsValue, contactId: JsValue, returnedFields: JsValue): (call: Invocation)
    ensures call == Invocation("getContactById", Some(Shape(GetContactByIdParams, [listId, contactId, returnedFields])))
  {
    var args := [listId, contactId, Or(returnedFields, Arr([Str("all")]))];
    assert args == Shape(GetContactByIdParams, [listId, contactId, returnedFields]);
    Invocation("getContactById", Some(args))
  }

  const ReactivateContactParams: seq<Param> := [Required, Required]

  /** `reactivateContact(list_id, contact_id)`. */
  function ReactivateContact(listId: JsValue, contactId: JsValue): (call: Invocation)
    ensures call == Invocation("reactivateContact", Some(Shape(ReactivateContactParams, [listId, contactId])))
  {
    var args := [listId, contactId];
    assert args == Shape(ReactivateContactParams, [listId, contactId]);
    Invocation("reactivateContact", Some(args))
  }

  const ResubscribeContactParams: seq<Param> := [Required, Required]

  /** `resubscribeContact(list_id, contact_id)`. */
  function ResubscribeContact(listId: JsValue, contactId: JsValue): (call: Invocation)
    ensures call == Invocation("resubscribeContact", Some(Shape(ResubscribeContactParams, [listId, contactId])))
  {
    var args := [listId, contactId];
    assert args == Shape(ResubscribeContactParams, [listId, contactId]);
    Invocation("resubscribeContact", Some(args))
  }

  const SearchContactsParams: seq<Param> := [Required, Default(Arr([])), Default(Num(0)), Default(Num(0)), Default(Null), Default(Null), Default(Arr([Str("all")]))]

  /** `searchContacts(list_id, search_criteria, limit, offset, sort_by, sort_order, returned_fields)`. */
  function SearchContacts(listId: JsValue, searchCriteria: JsValue, limit: JsValue, offset: JsValue, sortBy: JsValue, sortOrder: JsValue, returnedFields: JsValue): (call: Invocation)
    ensures call == Invocation("searchContacts", Some(Shape(SearchContactsParams, [listId, searchCriteria, limit, offset, sortBy, sortOrder, returnedFields])))
  {
    var args := [listId, Or(searchCriteria, Arr([])), Or(limit, Num(0)), Or(offset, Num(0)), Or(sortBy, Null), Or(sortOrder, Null), Or(returnedFields, Arr([Str("all")]))];
    assert args == Shape(SearchContactsParams, [listId, searchCriteria, limit, offset, sortBy, sortOrder, returnedFields]);
    Invocation("searchContacts", Some(args))
  }

  const SearchPreviousUnsubscribersParams: seq<Param> := [Default(Num(0)), Default(Arr([])), Default(Num(0)), Default(Num(0)), Default(Null), Default(Null)]

  /** `searchPreviousUnsubscribers(list_id, search_criteria, limit, offset, sort_by, sort_order)`. */
  function SearchPreviousUnsubscribers(listId: JsValue, searchCriteria: JsValue, limit: JsValue, offset: JsValue, sortBy: JsValue, sortOrder: JsValue): (call: Invocation)
    ensures call == Invocation("searchPreviousUnsubscribers", Some(Shape(SearchPreviousUnsubscribersParams, [listId, searchCriteria, limit, offset, sortBy, sortOrder])))
  {
    var args := [Or(listId, Num(0)), Or(searchCriteria, Arr([])), Or(limit, Num(0)), Or(offset, Num(0)), Or(sortBy, Null), Or(sortOrder, Null)];
    assert args == Shape(SearchPreviousUnsubscribersParams, [listId, searchCriteria, limit, offset, sortBy, sortOrder]);
    Invocation("searchPreviousUnsubscribers", Some(args))
  }

  const SubscribeContactParams: seq<Param> := [Required, Required]

  /** `subscribeContact(list_id, contact_details)`. */
  function SubscribeContact(listId: JsValue, contactDetails: JsValue): (call: Invocation)
    ensures call == Invocation("subscribeContact", Some(Shape(SubscribeContactParams, [listId, contactDetails])))
  {
    var args := [listId, contactDetails];
    assert args == Shape(SubscribeContactParams, [listId, contactDetails]);
    Invocation("subscribeContact", Some(args))
  }

  const UnsubscribeContactParams: seq<Param> := [Default(Num(0)), Required]

  /** `unsubscribeContact(list_id, email_address)`. */
  function UnsubscribeContact(listId: JsValue, emailAddress: JsValue): (call: Invocation)
    ensures call == Invocation("unsubscribeContact", Some(Shape(UnsubscribeContactParams, [listId, emailAddress])))
  {
    var args := [Or(listId, Num(0)), emailAddress];
    assert args == Shape(UnsubscribeContactParams, [listId, emailAddress]);
    Invocation("unsubscribeContact", Some(args))
  }

  const UnsubscribeContactByIdParams: seq<Param> := [Required, Required]

  /** `unsubscribeContactById(list_id, contact_id)`. */
  function UnsubscribeContactById(listId: JsValue, contactId: JsValue): (call: Invocation)
    ensures call == Invocation("unsubscribeContactById", Some(Shape(UnsubscribeContactByIdParams, [listId, contactId])))
  {
    var args := [listId, contactId];
    assert args == Shape(UnsubscribeContactByIdParams, [listId, contactId]);
    Invocation("unsubscribeContactById", Some(args))
  }

  /** `searchLists()` with no arguments asks for the first hundred lists by name. */
  lemma SearchListsWithoutArguments()
    ensures SearchLists(Undefined, Undefined, Undefined, Undefined, Undefined)
         == Invocation("searchLists", Some([Arr([]), Num(100), Num(0), Str("name"), Str("ASC")]))
  {
  }

  /** `searchLists` with every argument given passes the truthy ones through and
      puts the default `0` in place of the `0` offset. */
  lemma SearchListsWithAllArguments()
    ensures var criteria := Arr([Arr([Str("contact_count"), Str("greaterthan"), Num(0)])]);
            SearchLists(criteria, Num(1), Num(0), Str("creation_time"), Str("DESC")) ==
            Invocation("searchLists", Some([criteria, Num(1), Num(0), Str("creation_time"), Str("DESC")]))
  {
  }

  /** `||` cannot tell an explicit limit of 0 from a missing one: both become 100,
      while any truthy limit is sent as given. */
  lemma SearchListsLimit(criteria: JsValue, limit: JsValue, offset: JsValue, sortBy: JsValue, sortOrder: JsValue)
    ensures SearchLists(criteria, Num(0), offset, sortBy, sortOrder).options.value[1] == Num(100)
    ensures Truthy(limit) ==> SearchLists(criteria, limit, offset, sortBy, sortOrder).options.value[1] == limit
  {
  }

  /** `searchContacts(list_id)` sends seven arguments: no sort key or order, and
      every field returned. */
  lemma SearchContactsDefaults(listId: JsValue)
    ensures SearchContacts(listId, Undefined, Undefined, Undefined, Undefined, Undefined, Undefined)
         == Invocation("searchContacts", Some([listId, Arr([]), Num(0), Num(0), Null, Null, Arr([Str("all")])]))
  {
  }

  /** `addContacts(list_id, contacts)` neither overwrites nor removes unsubscribers. */
  lemma AddContactsDefaults(listId: JsValue, contacts: JsValue)
    ensures AddContacts(listId, contacts, Undefined, Undefined)
         == Invocation("addContacts", Some([listId, contacts, Bool(false), Num(0)]))
  {
  }

  /** `getTimezoneList()` passes no array, so the request carries the key alone
      when the schema accepts it unchanged. */
  lemma GetTimezoneListSendsOnlyKey(settings: Settings, schemaLoaded: bool, load: LoadOutcome, schema: Schema,
                                    transport: Transport)
    requires schemaLoaded || load.Loaded?
    requires var payload := Obj(map["args" := Arr([settings.apiKey])]);
             schema(RequestSchemaRef("getTimezoneList"), payload) == Success(payload)
    ensures GetTimezoneList().options.None?
    ensures var s := Pipeline(settings, schemaLoaded, load, schema, transport, "getTimezoneList", [settings.apiKey]);
            s.sent == [Request(settings.protocol, settings.host, "getTimezoneList", Arr([settings.apiKey]))]
  {
  }

  /** End to end: `searchLists()` on a client whose schema accepts the payload
      unchanged sends the key and the five defaults, in order. */
  lemma SearchListsRequestWithoutArguments(settings: Settings, schemaLoaded: bool, load: LoadOutcome, schema: Schema,
                                           transport: Transport)
    requires schemaLoaded || load.Loaded?
    requires var payload := Obj(map["args" := Arr([settings.apiKey, Arr([]), Num(100), Num(0), Str("name"), Str("ASC")])]);
             schema(RequestSchemaRef("searchLists"), payload) == Success(payload)
    ensures var call := SearchLists(Undefined, Undefined, Undefined, Undefined, Undefined);
            var s := Pipeline(settings, schemaLoaded, load, schema, transport, call.methodName,
                              [settings.apiKey] + call.options.value);
            s.sent == [Request(settings.protocol, settings.host, "searchLists",
                               Arr([settings.apiKey, Arr([]), Num(100), Num(0), Str("name"), Str("ASC")]))]
  {
    var defaults := [Arr([]), Num(100), Num(0), Str("name"), Str("ASC")];
    SearchListsWithoutArguments();
    assert [settings.apiKey] + defaults == [settings.apiKey, Arr([]), Num(100), Num(0), Str("name"), Str("ASC")];
    CredentialInjection(settings, schemaLoaded, load, schema, transport, "searchLists", defaults);
  }
}
