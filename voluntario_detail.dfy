/** The VoluntarioDetail page's edit, save and delete flows over the loaded
    volunteer record and its editable copy `form`. */
module VoluntarioDetail {
  import opened Js

  const UpdateError: string := "Error al actualizar el voluntario"
  const DeleteError: string := "Error al eliminar el voluntario"
  const LoadError: string := "No se pudo obtener el voluntario"

  /** `{...prev, [field]: value}`: spreading `null` gives no properties. */
  function WithField(prev: Option<Obj>, field: string, value: JsValue): (next: Obj)
    ensures next.Keys == (if prev.Some? then prev.value.Keys else {}) + {field}
    ensures next[field] == value
    ensures prev.Some? ==> forall k :: k in prev.value && k != field ==> next[k] == prev.value[k]
  {
    var base: Obj := if prev.Some? then prev.value else map[];
    base[field := value]
  }

  /** Setting a field twice keeps only the second value, and setting two
      different fields commutes. */
  lemma WithFieldLastWins(prev: Option<Obj>, field: string, v1: JsValue, v2: JsValue)
    ensures WithField(Some(WithField(prev, field, v1)), field, v2) == WithField(prev, field, v2)
  {
  }

  lemma WithFieldCommutes(prev: Option<Obj>, f1: string, v1: JsValue, f2: string, v2: JsValue)
    requires f1 != f2
    ensures WithField(Some(WithField(prev, f1, v1)), f2, v2) == WithField(Some(WithField(prev, f2, v2)), f1, v1)
  {
  }

  class VoluntarioDetailPage {
    /** The `id` route parameter. */
    const id: Option<string>
    var data: Option<Obj>
    var form: Option<Obj>
    var loading: bool
    var error: Option<string>
    var editMode: bool
    var showSuccess: bool
    var showDeleteConfirm: bool
    /** The route `navigate` was last called with. */
    var navigatedTo: Option<string>

    constructor (id: Option<string>)
      ensures this.id == id
      ensures data == None && form == None && loading && error == None
      ensures !editMode && !showSuccess && !showDeleteConfirm && navigatedTo == None
    {
      this.id := id;
      data, form, loading, error := None, None, true, None;
      editMode, showSuccess, showDeleteConfirm, navigatedTo := false, false, false, None;
    }

    /** `setData` together with the effect it triggers: whenever a record
      arrives, `form` is reset to it. */
    method SetData(d: Option<Obj>)
      modifies this`data, this`form
      ensures data == d
      ensures d.Some? ==> form == d
      ensures d.None? ==> form == old(form)
    {
      data := d;
      if d.Some? {
        form := d;
      }
    }

    /** The mount effect once `getVolunteerById` settles (`None`: it
      failed). Without an id nothing happens. */
    method LoadVolunteer(response: Option<Obj>)
      modifies this`data, this`form, this`loading, this`error
      ensures !Present(id) ==> data == old(data) && form == old(form) && loading == old(loading) && error == old(error)
      ensures Present(id) ==> !loading
      ensures Present(id) && response.Some? ==> data == response && form == response && error == None
      ensures Present(id) && response.None? ==> data == old(data) && form == old(form) && error == Some(LoadError)
    {
      if !Present(id) {
        return;
      }
      loading := true;
      error := None;
      if response.Some? {
        SetData(response);
      } else {
        error := Some(LoadError);
      }
      loading := false;
    }

    /** `handleInput`: one field of the form takes the new value; every
      other field keeps its value. */
    method HandleInput(field: string, value: JsValue)
      modifies this`form
      ensures form == Some(WithField(old(form), field, value))
    {
      form := Some(WithField(form, field, value));
    }

    /** `handleSave` with the update's outcome and the reload's result
      (`None`: that request failed). Returns the form it sent, if it sent
      one. A failed update only sets the error; a successful one closes the
      editor and shows the success notice before the reload, so a failed
      reload sets the error on top of that. */
    method HandleSave(updateOk: bool, reloaded: Option<Obj>) returns (sent: Option<Option<Obj>>)
      modifies this`data, this`form, this`error, this`editMode, this`showSuccess
      ensures !Present(id) ==> sent == None && data == old(data) && form == old(form)
                               && error == old(error) && editMode == old(editMode) && showSuccess == old(showSuccess)
      ensures Present(id) ==> sent == Some(old(form))
      ensures Present(id) && !updateOk ==>
                error == Some(UpdateError) && data == old(data) && form == old(form)
                && editMode == old(editMode) && showSuccess == old(showSuccess)
      ensures Present(id) && updateOk ==> showSuccess && !editMode
      ensures Present(id) && updateOk && reloaded.Some? ==> data == reloaded && form == reloaded && error == old(error)
      ensures Present(id) && updateOk && reloaded.None? ==> error == Some(UpdateError) && data == old(data) && form == old(form)
    {
      if !Present(id) {
        return None;
      }
      sent := Some(form);
      if !updateOk {
        error := Some(UpdateError);
        return;
      }
      showSuccess := true;
      editMode := false;
      if reloaded.Some? {
        SetData(reloaded);
      } else {
        error := Some(UpdateError);
      }
    }

    /** `handleDelete` with the delete's outcome: only a successful delete
      closes the dialog and leaves for the staff list. */
    method HandleDelete(ok: bool)
      modifies this`showDeleteConfirm, this`navigatedTo, this`error
      ensures !Present(id) ==> showDeleteConfirm == old(showDeleteConfirm) && navigatedTo == old(navigatedTo) && error == old(error)
      ensures Present(id) && ok ==> !showDeleteConfirm && navigatedTo == Some("/staff") && error == old(error)
      ensures Present(id) && !ok ==> error == Some(DeleteError) && navigatedTo == old(navigatedTo)
                                     && showDeleteConfirm == old(showDeleteConfirm)
    {
      if !Present(id) {
        return;
      }
      if ok {
        showDeleteConfirm := false;
        navigatedTo := Some("/staff");
      } else {
        error := Some(DeleteError);
      }
    }
  }
}
